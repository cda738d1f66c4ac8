/**
 The agent and its run loop. Everything outside (the model's streams, tools, hooks,
 the user queueing messages or aborting) is a script of inputs, one entry a turn.
 A run whose script is exhausted has not ended: it is a prefix of a longer run.
 */
module AgentLoop {
  import opened AgentTypes
  import opened AgentEvents
  import opened AgentQueue
  import opened AgentRecords
  import opened AgentTraces
  import opened AgentTools
  import opened Options

  // ---- The agent ----

  predicate EndsWith(trace: seq<Event>, e: Event) { trace != [] && trace[|trace| - 1] == e }

  /** None of the first `n` turns, but perhaps the very first, came with a context of its own. */
  predicate NoneReplace(turns: seq<TurnInput>, n: nat) {
    forall j | 0 < j < n && j < |turns| :: turns[j].newContext.None?
  }

  datatype RunOutcome = Refused | Unfinished | Completed

  class Agent {
    var state: View
    var isStreaming: bool
    /** A run is active, and its abort signal. */
    var active: bool
    var aborted: bool
    var sequentialTools: bool
    const steeringQueue: PendingMessageQueue
    const followUpQueue: PendingMessageQueue
    /** The events of the current run, where they are in the grammar, and the view the run started from. */
    ghost var trace: seq<Event>
    ghost var phase: Phase
    ghost var start: View

    ghost predicate QueuesValid()
      reads steeringQueue, followUpQueue
    {
      steeringQueue != followUpQueue && steeringQueue.Valid() && followUpQueue.Valid()
    }

    ghost function QueuesNow(): Queues
      reads steeringQueue, followUpQueue
    {
      Queues(Queue(steeringQueue.messages, steeringQueue.mode), Queue(followUpQueue.messages, followUpQueue.mode))
    }

    /** During a run the state is the reduction of the run's events. */
    ghost predicate Running()
      reads this`active, this`trace, this`phase, this`state, this`start
    {
      active && phase == PhaseOf(trace) && state == ReduceAll(start, trace)
    }

    constructor (messages: seq<Message>, steeringMode: QueueMode, followUpMode: QueueMode, sequentialTools: bool)
      ensures QueuesValid() && fresh(steeringQueue) && fresh(followUpQueue)
      ensures !active && state == View(messages, None, {}, None)
      ensures this.sequentialTools == sequentialTools
    {
      state := View(messages, None, {}, None);
      this.sequentialTools := sequentialTools;
      isStreaming, active, aborted := false, false, false;
      trace, phase, start := [], Idle, View(messages, None, {}, None);
      steeringQueue := new PendingMessageQueue(steeringMode);
      followUpQueue := new PendingMessageQueue(followUpMode);
    }

    method ProcessEvents(e: Event)
      requires Running()
      modifies this`state, this`phase, this`trace
      ensures Running() && trace == old(trace) + [e]
      ensures state == Reduce(old(state), e)
      ensures phase == Next(old(phase), e)
    {
      hide Next, PhaseOf, ReduceAll;
      OneMore(trace, e);
      ReduceOneMore(start, trace, e);
      match e {
        case MessageStart(m) =>
          state := state.(streaming := Some(m));
        case MessageUpdate(m) =>
          state := state.(streaming := Some(m));
        case MessageEnd(m) =>
          state := state.(streaming := None);
          state := state.(messages := state.messages + [m]);
        case ToolStart(c) =>
          state := state.(pendingToolCalls := state.pendingToolCalls + {c.id});
        case ToolEnd(c, _, _) =>
          state := state.(pendingToolCalls := state.pendingToolCalls - {c.id});
        case TurnEnd(m, _) =>
          if m.error.Some? && m.error.value != "" {
            state := state.(errorMessage := m.error);
          }
        case AgentEnd(_) =>
          state := state.(streaming := None);
        case _ =>
      }
      trace, phase := trace + [e], Next(phase, e);
    }

    /** No run is active and nothing of an earlier run shows. */
    ghost predicate IsIdle()
      reads this
    {
      !active && !isStreaming && state.streaming.None? && state.pendingToolCalls == {}
    }

    method BeginRun()
      requires IsIdle()
      modifies this`state, this`active, this`aborted, this`isStreaming, this`trace, this`phase, this`start
      ensures Running() && trace == [] && state == start && start.messages == old(state.messages)
      ensures start.streaming.None? && start.pendingToolCalls == {} && !aborted
    {
      active, aborted, isStreaming := true, false, true;
      state := state.(streaming := None, errorMessage := None);
      trace, phase, start := [], Idle, state;
    }

    method FinishRun()
      modifies this`state, this`active, this`isStreaming
      ensures IsIdle() && state.messages == old(state.messages)
    {
      state := state.(streaming := None, pendingToolCalls := {});
      active, isStreaming := false, false;
    }

    /** What a completed run promises, `before` being the transcript before it: events, new messages, context and
        transcript agree, the events are grammatical, the record follows the inputs and has what the queues gave, and
        the run had a reason to stop. */
    ghost predicate Settled(loop: Loop, o: Origin, before: seq<Message>)
      reads this, steeringQueue, followUpQueue, loop
    {
      && IsIdle()
      && state.messages == before + loop.newMessages
      && MessageEnds(trace) == loop.newMessages && EndsWith(trace, AgentEnd(loop.newMessages))
      && PhaseOf(trace) == Phase.Finished
      && loop.newMessages == loop.prompts + LogMessages(loop.log) && |loop.log| <= |o.script.turns|
      && loop.ContextIs(BaseAfter(before, loop.prompts, o.script.turns, loop.log, |loop.log|))
      && Ended(o, loop.log, QueuesNow())
    }

    /** What a run promises, completed or not: every turn did what its input calls for and had what the queues gave, and
        let the next one follow; one message of a queue at a time if that is how the queue starts and nobody changes it,
        and so has the turn under way; unless it was replaced, the
        context is the transcript and then the new messages; and, once completed, all that `Settled` says, with nothing
        pending. */
    ghost predicate RunIs(completed: bool, loop: Loop, o: Origin, before: seq<Message>)
      reads this, steeringQueue, followUpQueue, loop
    {
      && loop.agent == this && loop.origin == o && LogPolls(o, loop.log) && LogWentOn(o, loop.log)
      && LogFollows(loop.log, o.script.turns, sequentialTools)
      && (forall source | StartsOneByOne(o, source) ::
           loop.InjectsOneByOne(source) && |loop.Outstanding(source)| <= 1)
      && (NoneReplace(o.script.turns, if completed then |loop.log| else loop.Begun()) ==>
           loop.context == before + loop.newMessages)
      && (if completed then Settled(loop, o, before) && loop.Outstanding(Steering) == loop.Outstanding(FollowUps) == []
          else loop.Suspended() && start.messages == before)
    }

    /** A complete run is over: the agent is idle again. */
    method SettleRun(loop: Loop)
      requires loop.agent == this && loop.Complete() && start.streaming.None? && start.pendingToolCalls == {}
      requires forall source | StartsOneByOne(loop.origin, source) :: loop.InjectsOneByOne(source)
      modifies this`state, this`active, this`isStreaming
      ensures RunIs(true, loop, loop.origin, start.messages)
    {
      hide Next, PhaseOf, Reduce, ReduceAll, LogMessages, InjectedFrom, LogFollows, LogPolls, LogWentOn, LetsGoOn,
           Ended, DeliveredOf, Gone, BaseAfter, StartsOneByOne, NoneReplace;
      TranscriptIsMessageEnds(start, trace);
      loop.Unreplaced(|loop.log|);
      FinishRun();
      SameTail(start.messages, MessageEnds(trace), loop.newMessages);
    }

    lemma StillRuns(loop: Loop)
      requires loop.agent == this && loop.Suspended()
      requires forall source | StartsOneByOne(loop.origin, source) :: loop.InjectsOneByOne(source)
      ensures RunIs(false, loop, loop.origin, start.messages)
    {
      hide StartsOneByOne, LogPolls, LogWentOn, LetsGoOn, HeldAt, IsPolled, PhaseOf, ReduceAll, NoneReplace;
      loop.Unreplaced(loop.Begun());
      loop.OneOutstanding();
    }

    /** `runPromptMessages` and, without prompts, `runContinuation`. */
    method RunWithLifecycle(prompts: seq<Message>, continuing: bool, script: Script, skipInitialPoll: bool)
      returns (finished: bool, loop: Loop)
      requires IsIdle() && QueuesValid() && script.OneStartEach()
      requires continuing ==> prompts == []
      modifies this`state, this`active, this`aborted, this`isStreaming, this`trace, this`phase, this`start
      modifies steeringQueue, followUpQueue
      ensures fresh(loop) && loop.agent == this && loop.prompts == prompts && QueuesValid()
      ensures skipInitialPoll ==> loop.FirstTurnInjectsNothing()
      ensures RunIs(finished, loop, Origin(script, old(QueuesNow()), skipInitialPoll), old(state.messages))
      ensures steeringQueue.Delivered() ==
              old(steeringQueue.Delivered()) + InjectedFrom(loop.log, Steering) + loop.Outstanding(Steering)
      ensures followUpQueue.Delivered() ==
              old(followUpQueue.Delivered()) + InjectedFrom(loop.log, FollowUps) + loop.Outstanding(FollowUps)
    {
      hide Next, Reduce, LogMessages, InjectedFrom, LogFollows, LogPolls, LogWentOn, LetsGoOn, Ended, BaseAfter,
           DeliveredOf, Gone, AtMostOneStart, PhaseOf, ReduceAll, MessageEnds, StartsOneByOne, HeldAt, IsPolled,
           RunIs;
      BeginRun();
      loop := new Loop(this, state.messages, prompts, script, skipInitialPoll);
      finished := loop.RunAgentLoop(prompts, script);
      loop.RecordSays();
      if finished {
        SettleRun(loop);
      } else {
        StillRuns(loop);
      }
    }

    method Prompt(prompts: seq<Message>, script: Script) returns (outcome: RunOutcome, loop: Loop?)
      requires !active ==> IsIdle()
      requires QueuesValid() && script.OneStartEach()
      modifies this`state, this`active, this`aborted, this`isStreaming, this`trace, this`phase, this`start
      modifies steeringQueue, followUpQueue
      ensures QueuesValid()
      ensures outcome.Refused? <==> old(active)
      ensures outcome.Refused? ==> unchanged(this) && unchanged(steeringQueue) && unchanged(followUpQueue)
      ensures !outcome.Refused? ==> loop != null && fresh(loop) && loop.prompts == prompts
      ensures !outcome.Refused? ==>
        RunIs(outcome.Completed?, loop, Origin(script, old(QueuesNow()), false), old(state.messages))
      ensures !outcome.Refused? ==>
        && steeringQueue.Delivered() ==
           old(steeringQueue.Delivered()) + InjectedFrom(loop.log, Steering) + loop.Outstanding(Steering)
        && followUpQueue.Delivered() ==
           old(followUpQueue.Delivered()) + InjectedFrom(loop.log, FollowUps) + loop.Outstanding(FollowUps)
    {
      if active { return Refused, null; }
      var finished;
      finished, loop := RunWithLifecycle(prompts, false, script, false);
      outcome := if finished then Completed else Unfinished;
    }

    /** Continues from the transcript; after an assistant message, from what the steering queue, or else the follow-up
        queue, gives in its mode; after steering the first turn injects nothing more. `source` says which queue the
        run's prompts came from. */
    method Continue(script: Script) returns (outcome: RunOutcome, loop: Loop?, source: Option<Source>)
      requires !active ==> IsIdle()
      requires QueuesValid() && script.OneStartEach()
      modifies this`state, this`active, this`aborted, this`isStreaming, this`trace, this`phase, this`start
      modifies steeringQueue, followUpQueue
      ensures QueuesValid()
      ensures outcome.Refused? <==>
        || old(active) || old(state.messages) == []
        || (old(state.messages)[|old(state.messages)| - 1].FromAssistant?
            && old(steeringQueue.messages) == [] && old(followUpQueue.messages) == [])
      ensures !outcome.Refused? ==> loop != null && fresh(loop) && (source.None? <==> loop.prompts == [])
      ensures !outcome.Refused? && old(state.messages)[|old(state.messages)| - 1].FromAssistant? ==>
        && source == Some(if old(steeringQueue.messages) != [] then Steering else FollowUps)
        && loop.prompts == if source == Some(Steering) then old(Taken(steeringQueue.messages, steeringQueue.mode))
                           else old(Taken(followUpQueue.messages, followUpQueue.mode))
      ensures !outcome.Refused? && !old(state.messages)[|old(state.messages)| - 1].FromAssistant? ==> source.None?
      ensures !outcome.Refused? && source == Some(Steering) ==> loop.FirstTurnInjectsNothing()
      ensures !outcome.Refused? ==>
        var queues := if source.Some? then Poll(old(QueuesNow()), source.value).queues else old(QueuesNow());
        RunIs(outcome.Completed?, loop, Origin(script, queues, source == Some(Steering)), old(state.messages))
      ensures !outcome.Refused? ==>
        && steeringQueue.Delivered() == old(steeringQueue.Delivered())
             + (if source == Some(Steering) then loop.prompts else [])
             + InjectedFrom(loop.log, Steering) + loop.Outstanding(Steering)
        && followUpQueue.Delivered() == old(followUpQueue.Delivered())
             + (if source == Some(FollowUps) then loop.prompts else [])
             + InjectedFrom(loop.log, FollowUps) + loop.Outstanding(FollowUps)
    {
      hide PhaseOf, ReduceAll, Next, Reduce, LogMessages, InjectedFrom, LogFollows, LogPolls, LogWentOn, LetsGoOn,
           Ended, BaseAfter, MessageEnds, DeliveredOf, Gone, RunIs;
      source := None;
      if active || state.messages == [] { return Refused, null, source; }
      var prompts: seq<Message> := [];
      if state.messages[|state.messages| - 1].FromAssistant? {
        prompts := steeringQueue.Drain();
        if prompts != [] {
          source := Some(Steering);
        } else {
          prompts := followUpQueue.Drain();
          if prompts == [] { return Refused, null, source; }
          source := Some(FollowUps);
        }
      }
      var finished;
      finished, loop := RunWithLifecycle(prompts, source.None?, script, source == Some(Steering));
      outcome := if finished then Completed else Unfinished;
    }

    /** The signal, once raised, stays raised. */
    method MayAbort(now: bool)
      modifies this`aborted
      ensures aborted == (old(aborted) || now)
    {
      if now { aborted := true; }
    }

    method Apply(ops: seq<QueueOp>)
      requires QueuesValid()
      modifies steeringQueue, followUpQueue
      ensures QueuesValid()
      ensures QueuesNow() == OpsDone(old(QueuesNow()), ops)
      ensures steeringQueue.Delivered() == old(steeringQueue.Delivered())
      ensures followUpQueue.Delivered() == old(followUpQueue.Delivered())
    {
      for i := 0 to |ops|
        invariant QueuesValid() && QueuesNow() == OpsDone(old(QueuesNow()), ops[..i])
        invariant steeringQueue.Delivered() == old(steeringQueue.Delivered())
        invariant followUpQueue.Delivered() == old(followUpQueue.Delivered())
      {
        assert ops[..i + 1][..i] == ops[..i];
        match ops[i] {
          case Steer(m) => steeringQueue.Enqueue(m);
          case FollowUp(m) => followUpQueue.Enqueue(m);
          case ClearSteering => steeringQueue.Clear();
          case ClearFollowUps => followUpQueue.Clear();
          case SetSteeringMode(mode) => steeringQueue.mode := mode;
          case SetFollowUpMode(mode) => followUpQueue.mode := mode;
        }
      }
      assert ops[..|ops|] == ops;
    }
  }

  // ---- A parallel batch while it runs ----

  ghost function OpenIn(slot: Slot): multiset<CallId> {
    if slot.Done? then multiset{} else multiset{slot.call.id}
  }

  ghost function EndedIn(slot: Slot): multiset<ToolResultMessage> {
    if slot.Done? then multiset{ResultMessage(slot.outcome)} else multiset{}
  }

  /** What the first `n` slots have between them. */
  ghost function SumTo<T>(slots: seq<Slot>, n: nat, f: Slot -> multiset<T>): multiset<T>
    requires n <= |slots|
  {
    if n == 0 then multiset{} else SumTo(slots, n - 1, f) + f(slots[n - 1])
  }

  lemma {:induction false} SumSame<T>(slots: seq<Slot>, others: seq<Slot>, n: nat, f: Slot -> multiset<T>)
    requires n <= |slots| && n <= |others|
    requires forall k | 0 <= k < n :: slots[k] == others[k]
    ensures SumTo(slots, n, f) == SumTo(others, n, f)
  {
    if n > 0 { SumSame(slots, others, n - 1, f); }
  }

  lemma {:induction false} AddToBoth<T>(p: multiset<T>, x: multiset<T>, q: multiset<T>, y: multiset<T>, last: multiset<T>)
    requires p + x == q + y
    ensures p + last + x == q + last + y
  {
    assert p + last + x == p + x + last;
    assert q + last + y == q + y + last;
  }

  lemma {:induction false} SumUpdate<T>(slots: seq<Slot>, k: nat, slot: Slot, n: nat, f: Slot -> multiset<T>)
    requires k < n <= |slots|
    ensures SumTo(slots[k := slot], n, f) + f(slots[k]) == SumTo(slots, n, f) + f(slot)
  {
    if k < n - 1 {
      SumUpdate(slots, k, slot, n - 1, f);
      AddToBoth(SumTo(slots[k := slot], n - 1, f), f(slots[k]), SumTo(slots, n - 1, f), f(slot), f(slots[n - 1]));
    } else {
      SumSame(slots[k := slot], slots, n - 1, f);
    }
  }

  lemma {:induction false} SumHas<T>(slots: seq<Slot>, k: nat, n: nat, f: Slot -> multiset<T>, x: T)
    requires k < n <= |slots| && x in f(slots[k])
    ensures x in SumTo(slots, n, f)
  {
    if k < n - 1 { SumHas(slots, k, n - 1, f, x); }
  }

  lemma {:induction false} SumPush<T>(slots: seq<Slot>, slot: Slot, f: Slot -> multiset<T>)
    ensures SumTo(slots + [slot], |slots| + 1, f) == SumTo(slots, |slots|, f) + f(slot)
  {
    SumSame(slots + [slot], slots, |slots|, f);
  }

  /** The calls of a batch, in order. */
  function CallsIn(slots: seq<Slot>): (r: seq<ToolCall>)
    ensures |r| == |slots|
  {
    seq(|slots|, k requires 0 <= k < |slots| => CallOf(slots[k]))
  }

  /** The phase of a turn whose batch is at `slots`: the calls not done are open, those done have ended. */
  ghost function BatchPhase(slots: seq<Slot>): (p: Phase)
    ensures p.InTurn? && p.message.None?
  {
    InTurn(SumTo(slots, |slots|, OpenIn), None,
           Batch(CallsIn(slots), SumTo(slots, |slots|, EndedIn)))
  }

  /** The phase of a turn whose tools have run: `results` are those of `calls`. */
  ghost function ToolsRun(calls: seq<ToolCall>, results: seq<ToolResultMessage>): (p: Phase)
    ensures p.InTurn? && p.message.None? && p.open == multiset{}
  {
    InTurn(multiset{}, None, Batch(calls, multiset(results)))
  }

  lemma {:induction false} NoSlots()
    ensures BatchPhase([]) == TURN_OPEN == ToolsRun([], [])
  {
  }

  lemma {:induction false} AddAndTake<T>(p: multiset<T>, x: T)
    ensures p + multiset{x} - multiset{x} == p && p + multiset{} == p
  {
  }

  lemma {:induction false} OneLess<T>(p: multiset<T>, q: multiset<T>, x: T)
    requires p + multiset{x} == q + multiset{}
    ensures x in q && p == q - multiset{x}
  {
    assert q + multiset{} == q;
    assert x in p + multiset{x};
    assert p == (p + multiset{x}) - multiset{x};
  }

  lemma {:induction false} Cancel<T>(p: multiset<T>, q: multiset<T>, x: multiset<T>)
    requires p + x == q + x
    ensures p == q
  {
    assert p == (p + x) - x && q == (q + x) - x;
  }

  /** A call whose tool is to run enters the batch. */
  lemma {:induction false} SlotWaits(slots: seq<Slot>, call: ToolCall)
    ensures var p := BatchPhase(slots);
      BatchPhase(slots + [Slot.Waiting(call)]) ==
        InTurn(p.open + multiset{call.id}, None, p.batch.(started := p.batch.started + [call]))
  {
    hide SumTo;
    var slot := Slot.Waiting(call);
    SumPush(slots, slot, OpenIn);
    SumPush(slots, slot, EndedIn);
    AddAndTake(SumTo(slots, |slots|, OpenIn), call.id);
    assert CallsIn(slots + [slot]) == CallsIn(slots) + [call];
  }

  /** A call that is answered without running enters it done. */
  lemma {:induction false} SlotReady(slots: seq<Slot>, f: Finalized)
    ensures var p := BatchPhase(slots);
      BatchPhase(slots + [Done(f)]) ==
        InTurn(p.open + multiset{f.call.id} - multiset{f.call.id}, None,
               Batch(p.batch.started + [f.call], p.batch.ended + multiset{ResultMessage(f)}))
  {
    hide SumTo;
    SumPush(slots, Done(f), OpenIn);
    SumPush(slots, Done(f), EndedIn);
    AddAndTake(SumTo(slots, |slots|, OpenIn), f.call.id);
    assert CallsIn(slots + [Done(f)]) == CallsIn(slots) + [f.call];
  }

  lemma {:induction false} CallEnters(slots: seq<Slot>, slot: Slot, calls: seq<ToolCall>, i: nat)
    requires i < |calls| && CallsIn(slots) == calls[..i] && CallOf(slot) == calls[i]
    ensures CallsIn(slots + [slot]) == calls[..i + 1]
  {
    assert CallsIn(slots + [slot]) == CallsIn(slots) + [CallOf(slot)];
  }

  lemma {:induction false} EntrySlot(call: ToolCall, inp: CallInput, aborted: bool)
    ensures CallOf(SlotOf(EntryFor(call, inp, aborted))) == call
  {
  }

  lemma {:induction false} SameCalls(slots: seq<Slot>, k: nat, slot: Slot)
    requires k < |slots| && CallOf(slot) == CallOf(slots[k])
    ensures CallsIn(slots[k := slot]) == CallsIn(slots)
  {
  }

  /** A call that goes on keeps its id open. */
  lemma {:induction false} SlotGoesOn(slots: seq<Slot>, k: nat, slot: Slot)
    requires k < |slots| && !slots[k].Done? && !slot.Done? && slot.call == slots[k].call
    ensures slots[k].call.id in BatchPhase(slots).open
    ensures CallsIn(slots[k := slot]) == CallsIn(slots)
    ensures BatchPhase(slots[k := slot]) == BatchPhase(slots)
  {
    hide SumTo;
    SameCalls(slots, k, slot);
    SumHas(slots, k, |slots|, OpenIn, slots[k].call.id);
    SumUpdate(slots, k, slot, |slots|, OpenIn);
    SumUpdate(slots, k, slot, |slots|, EndedIn);
    Cancel(SumTo(slots[k := slot], |slots|, OpenIn), SumTo(slots, |slots|, OpenIn), multiset{slot.call.id});
    Cancel(SumTo(slots[k := slot], |slots|, EndedIn), SumTo(slots, |slots|, EndedIn), multiset{});
  }

  /** A call that is done gives its id back and has ended with its result. */
  lemma {:induction false} SlotEnds(slots: seq<Slot>, k: nat, f: Finalized)
    requires k < |slots| && !slots[k].Done? && f.call == slots[k].call
    ensures slots[k].call.id in BatchPhase(slots).open
    ensures CallsIn(slots[k := Done(f)]) == CallsIn(slots)
    ensures var p := BatchPhase(slots);
      BatchPhase(slots[k := Done(f)]) ==
        InTurn(p.open - multiset{f.call.id}, None, p.batch.(ended := p.batch.ended + multiset{ResultMessage(f)}))
  {
    hide SumTo;
    SameCalls(slots, k, Done(f));
    SumUpdate(slots, k, Done(f), |slots|, OpenIn);
    SumUpdate(slots, k, Done(f), |slots|, EndedIn);
    OneLess(SumTo(slots[k := Done(f)], |slots|, OpenIn), SumTo(slots, |slots|, OpenIn), f.call.id);
    var ended := SumTo(slots[k := Done(f)], |slots|, EndedIn);
    assert ended + multiset{} == ended;
  }

  lemma {:induction false} AllDone(slots: seq<Slot>, fs: seq<Finalized>, n: nat)
    requires n <= |slots| == |fs| && forall k | 0 <= k < |slots| :: slots[k] == Done(fs[k])
    ensures SumTo(slots, n, OpenIn) == multiset{}
    ensures SumTo(slots, n, EndedIn) == multiset(ResultMessages(fs[..n]))
  {
    if n > 0 {
      AllDone(slots, fs, n - 1);
      assert fs[..n] == fs[..n - 1] + [fs[n - 1]];
      OneMoreResult(fs[..n - 1], fs[n - 1]);
    } else {
      NoResults();
    }
  }

  lemma {:induction false} BatchIsDone(slots: seq<Slot>, fs: seq<Finalized>)
    requires |slots| == |fs| && forall k | 0 <= k < |slots| :: slots[k] == Done(fs[k])
    ensures BatchPhase(slots) == ToolsRun(CallsIn(slots), ResultMessages(fs))
  {
    AllDone(slots, fs, |slots|);
    assert fs[..|slots|] == fs;
  }

  /** One more tool of a turn runs from start to end. */
  lemma {:induction false} OneMoreToolRun(calls: seq<ToolCall>, results: seq<ToolResultMessage>, i: nat, m: ToolResultMessage)
    requires i < |calls|
    ensures var b, id := ToolsRun(calls[..i], results).batch, calls[i].id;
      && InTurn(multiset{}, None, Batch(b.started + [calls[i]], b.ended + multiset{m}))
         == InTurn(multiset{} + multiset{id} - multiset{id}, None, Batch(b.started + [calls[i]], b.ended + multiset{m}))
         == ToolsRun(calls[..i + 1], results + [m])
  {
    assert calls[..i + 1] == calls[..i] + [calls[i]];
    assert multiset(results + [m]) == multiset(results) + multiset{m};
    AddAndTake(multiset{}, calls[i].id);
  }

  lemma {:induction false} TruncatedAnswers(call: ToolCall)
    ensures Truncated(call).call == call
  {
  }

  /** The slot is done with the outcome, or its tool has started and will finalize to it. */
  ghost predicate SlotLeadsTo(slot: Slot, outcome: Finalized, inp: CallInput) {
    match slot
    case Done(f) => f == outcome
    case Waiting(_) => false
    case Executing(call) => outcome == Finalize(call, inp)
    case Executed(call) => outcome == Finalize(call, inp)
  }

  ghost predicate SlotsLeadTo(slots: seq<Slot>, outcomes: seq<Finalized>, inputs: nat -> CallInput) {
    |slots| == |outcomes| && forall k | 0 <= k < |slots| :: SlotLeadsTo(slots[k], outcomes[k], inputs(k))
  }

  function SlotOf(e: Entry): Slot {
    match e
    case Ready(outcome) => Done(outcome)
    case Waiting(call) => Slot.Waiting(call)
  }

  lemma {:induction false} TurnEndKeepsMessages(v: View, e: Event)
    requires e.TurnEnd?
    ensures Reduce(v, e).messages == v.messages
  {
  }

  lemma {:induction false} Regroup(a: seq<Event>, b: seq<Event>, c: seq<Event>, d: seq<Event>)
    ensures a + (b + c + d) == a + b + c + d
  {
  }

  lemma {:induction false} MayEnd(t: Turn, inp: TurnInput, sequentialConfig: bool)
    requires TurnFollows(t, inp, sequentialConfig)
    ensures |t.results| <= |t.assistant.ToolCalls()|
    ensures Next(ToolsRun(t.assistant.ToolCalls()[..|t.results|], t.results), TurnEnd(t.assistant, t.results)) == BetweenTurns
  {
    hide TurnFollows, CallsOf;
    TurnAnswersCalls(t, inp, sequentialConfig);
  }

  const TURN_OPEN := InTurn(multiset{}, None, NO_TOOLS)

  /** What streaming does to the phase and to the transcript. */
  lemma {:induction false} StreamStep(v: View, started: Message, m: Message)
    ensures Next(TURN_OPEN, MessageStart(m)) == InTurn(multiset{}, Some(m), NO_TOOLS)
    ensures started.FromAssistant? && m.FromAssistant? ==>
      Next(InTurn(multiset{}, Some(started), NO_TOOLS), MessageUpdate(m)) == InTurn(multiset{}, Some(started), NO_TOOLS)
    ensures Reduce(v, MessageStart(m)).messages == Reduce(v, MessageUpdate(m)).messages == v.messages
  {
  }

  // ---- The loop ----

  class Loop {
    const agent: Agent
    var context: seq<Message>
    var newMessages: seq<Message>
    var pending: seq<Message>
    var skipInitialPoll: bool

    /** What the run began with, what the queues had delivered by then, and the prompts. */
    ghost const origin: Origin
    ghost const steeredBefore: seq<Message>
    ghost const followedBefore: seq<Message>
    ghost const prompts: seq<Message>
    /** The completed turns. */
    ghost var log: seq<Turn>
    /** What a turn that a tool keeps from ending has injected. */
    ghost var injecting: seq<Message>
    /** The loop context is `base` and then the new messages from index `baseAt` on. */
    ghost var base: seq<Message>
    ghost var baseAt: nat
    ghost var pendingFrom: Source
    ghost var pendingMode: QueueMode

    ghost predicate FirstTurnInjectsNothing()
      reads this`log
    {
      log != [] ==> log[0].injected == []
    }

    ghost predicate InjectsOneByOne(source: Source)
      reads this`log
    {
      forall i | 0 <= i < |log| && log[i].source == source :: |log[i].injected| <= 1
    }

    /** What is held of a queue for a turn that has not completed. */
    ghost function Outstanding(source: Source): seq<Message>
      reads this`injecting, this`pending, this`pendingFrom
    {
      if pendingFrom == source then injecting + pending else []
    }

    ghost predicate Ready()
      reads this, agent, agent.steeringQueue, agent.followUpQueue
    {
      agent.QueuesValid() && agent.Running()
    }

    /** The context is this base and then the new messages made since. */
    ghost predicate ContextIs(b: Base)
      reads this`context, this`newMessages
    {
      b.at <= |newMessages| && context == b.messages + newMessages[b.at..]
    }

    /** The events, the new messages and the loop context agree. */
    ghost predicate ViewsAgree()
      reads this, agent
    {
      agent.state.messages == agent.start.messages + newMessages && ContextIs(Base(base, baseAt))
    }

    /** The messages each queue delivered are those injected so far and those pending, in order. */
    ghost predicate Conserved(injected: seq<Message>)
      reads this, agent, agent.steeringQueue, agent.followUpQueue
    {
      var held := injected + pending;
      && agent.steeringQueue.Delivered() == steeredBefore + InjectedFrom(log, Steering)
                                            + (if pendingFrom.Steering? then held else [])
      && agent.followUpQueue.Delivered() == followedBefore + InjectedFrom(log, FollowUps)
                                            + (if pendingFrom.FollowUps? then held else [])
    }

    /** What is pending and what the queues are; nothing is held back by a skipped poll any more. */
    ghost function HeldNow(): Held
      reads this, agent, agent.steeringQueue, agent.followUpQueue
    {
      Held(agent.QueuesNow(), pendingFrom, pendingMode, pending)
    }

    ghost predicate Holds(h: Held)
      reads this, agent, agent.steeringQueue, agent.followUpQueue
    {
      HeldNow() == h && !skipInitialPoll
    }

    /** How many turns have begun. */
    ghost function Begun(): nat
      reads this`log, agent`phase
    {
      |log| + if agent.phase.InTurn? then 1 else 0
    }

    /** When `begun` turns have begun: the record is that of a run of the script, with what the queues gave, and the
        context builds on what it should. */
    ghost predicate Recorded(begun: nat)
      reads this`log, this`base, this`baseAt, agent`sequentialTools, agent`start
    {
      var turns := origin.script.turns;
      && |log| <= |turns| && LogFollows(log, turns, agent.sequentialTools) && LogPolls(origin, log)
      && LogWentOn(origin, log)
      && begun <= |log| + 1 && (begun > 1 ==> begun <= |turns|)
      && Base(base, baseAt) == BaseAfter(agent.start.messages, prompts, turns, log, begun)
    }

    /** Between turns everything so far is accounted for; the abort signal is raised only if some turn raised it. */
    ghost predicate Inv()
      reads this, agent, agent.steeringQueue, agent.followUpQueue
    {
      && Ready()
      && ViewsAgree()
      && Conserved([]) && injecting == []
      && newMessages == prompts + LogMessages(log) && Recorded(Begun())
      && (agent.aborted ==> RaisedBefore(origin.script.turns, |log|))
    }

    /** What is pending is what the polls since the last turn gave. */
    ghost predicate Polled()
      requires |log| <= |origin.script.turns|
      reads this, agent, agent.steeringQueue, agent.followUpQueue
    {
      IsPolled(origin, log, HeldNow()) && !skipInitialPoll
    }

    constructor (agent: Agent, context: seq<Message>, prompts: seq<Message>, script: Script, skipInitialPoll: bool)
      ensures this.agent == agent && this.context == context && newMessages == [] && pending == []
      ensures origin == Origin(script, agent.QueuesNow(), skipInitialPoll) && this.skipInitialPoll == skipInitialPoll
      ensures steeredBefore == agent.steeringQueue.Delivered() && followedBefore == agent.followUpQueue.Delivered()
      ensures this.prompts == prompts && log == [] && injecting == [] && base == context && baseAt == 0
      ensures pendingFrom.Steering?
    {
      this.agent := agent;
      this.context := context;
      this.skipInitialPoll := skipInitialPoll;
      newMessages, pending := [], [];
      origin := Origin(script, agent.QueuesNow(), skipInitialPoll);
      steeredBefore, followedBefore := agent.steeringQueue.Delivered(), agent.followUpQueue.Delivered();
      this.prompts, log, injecting := prompts, [], [];
      base, baseAt := context, 0;
      pendingFrom, pendingMode := Steering, All;
    }

    /** Drains the steering queue; the poll that is to be skipped leaves it alone. */
    method PollSteering() returns (drained: seq<Message>)
      requires agent.QueuesValid()
      modifies this`skipInitialPoll, agent.steeringQueue
      ensures agent.QueuesValid() && !skipInitialPoll
      ensures agent.steeringQueue.Delivered() == old(agent.steeringQueue.Delivered()) + drained
      ensures old(skipInitialPoll) ==> drained == [] && agent.QueuesNow() == old(agent.QueuesNow())
      ensures !old(skipInitialPoll) ==>
        var h := Poll(old(agent.QueuesNow()), Steering); drained == h.messages && agent.QueuesNow() == h.queues
    {
      if skipInitialPoll {
        skipInitialPoll := false;
        return [];
      }
      drained := agent.steeringQueue.Drain();
    }

    /** Adds a complete message to every view. */
    method Deliver(message: Message)
      requires agent.Running() && ViewsAgree() && agent.phase == TURN_OPEN
      modifies this`context, this`newMessages, agent`state, agent`phase, agent`trace
      ensures agent.Running() && ViewsAgree() && agent.phase == TURN_OPEN
      ensures newMessages == old(newMessages) + [message]
    {
      agent.ProcessEvents(MessageStart(message));
      agent.ProcessEvents(MessageEnd(message));
      context := context + [message];
      newMessages := newMessages + [message];
    }

    method InjectPending()
      requires agent.Running() && ViewsAgree() && agent.phase == TURN_OPEN
      modifies this`context, this`newMessages, this`pending, agent`state, agent`phase, agent`trace
      ensures agent.Running() && ViewsAgree() && agent.phase == TURN_OPEN
      ensures pending == [] && newMessages == old(newMessages) + old(pending)
    {
      for i := 0 to |pending|
        invariant pending == old(pending)
        invariant agent.Running() && ViewsAgree() && agent.phase == TURN_OPEN
        invariant newMessages == old(newMessages) + pending[..i]
      {
        Deliver(pending[i]);
      }
      pending := [];
    }

    /** The streaming part: one slot in the context for each start, overwritten by updates. */
    method ConsumeStream(s: StreamInput) returns (partial: Option<AssistantMessage>, ghost started: Option<Message>)
      requires agent.Running()
      modifies this`context, agent`state, agent`phase, agent`trace
      ensures agent.Running()
      ensures context == old(context) + FromAssistants(SlotsFrom([], s.events))
      ensures partial.Some? <==> SlotsFrom([], s.events) != []
      ensures agent.state.messages == old(agent.state.messages)
      ensures started.Some? == partial.Some? && (started.Some? ==> started.value.FromAssistant?)
      ensures agent.trace == old(agent.trace) + StreamTrace(s.events, false) && (partial.Some? <==> Starts(s.events) > 0)
      ensures AtMostOneStart(s) && old(agent.phase) == TURN_OPEN ==>
        agent.phase == InTurn(multiset{}, started, NO_TOOLS)
    {
      hide PhaseOf, ReduceAll, Next, Reduce;
      ghost var slots: seq<AssistantMessage> := [];
      SlotForEachStart(slots, s.events);
      started, partial := None, None;
      var rest := s.events;
      while rest != [] && !rest[0].End?
        invariant agent.Running()
        invariant SlotsFrom(slots, rest) == SlotsFrom([], s.events)
        invariant partial.Some? <==> slots != []
        invariant old(agent.trace) + StreamTrace(s.events, false) == agent.trace + StreamTrace(rest, slots != [])
        invariant started.Some? == partial.Some? && (started.Some? ==> started.value.FromAssistant?)
        invariant context == old(context) + FromAssistants(slots)
        invariant agent.state.messages == old(agent.state.messages)
        invariant |slots| <= 1 && old(agent.phase) == TURN_OPEN ==>
          agent.phase == InTurn(multiset{}, started, NO_TOOLS)
      {
        var event := rest[0];
        StreamStep(agent.state, OrElse(started, FromAssistant(event.partial)), FromAssistant(event.partial));
        if event.Start? {
          partial := Some(event.partial);
          context := context + [FromAssistant(event.partial)];
          agent.ProcessEvents(MessageStart(FromAssistant(event.partial)));
          started, slots := Some(FromAssistant(event.partial)), slots + [event.partial];
        } else if partial.Some? {
          partial := Some(event.partial);
          context := context[|context| - 1 := FromAssistant(event.partial)];
          agent.ProcessEvents(MessageUpdate(FromAssistant(event.partial)));
          slots := slots[|slots| - 1 := event.partial];
        }
        rest := rest[1..];
      }
    }

    method StreamAssistantResponse(s: StreamInput) returns (message: AssistantMessage)
      requires agent.Running()
      modifies this`context, agent`state, agent`phase, agent`trace
      ensures agent.Running() && message == s.final
      ensures context == old(context) + Stale(s) + [FromAssistant(message)]
      ensures agent.state.messages == old(agent.state.messages) + [FromAssistant(message)]
      ensures agent.trace == old(agent.trace) + ResponseTrace(s)
      ensures AtMostOneStart(s) && old(agent.phase) == TURN_OPEN ==> agent.phase == TURN_OPEN
    {
      var partial, started := ConsumeStream(s);
      message := s.final;
      if partial.Some? {
        context := context[|context| - 1 := FromAssistant(message)];
      } else {
        context := context + [FromAssistant(message)];
        agent.ProcessEvents(MessageStart(FromAssistant(message)));
      }
      agent.ProcessEvents(MessageEnd(FromAssistant(message)));
    }

    // ---- Tool batches ----

    method EmitToolStart(call: ToolCall)
      requires agent.Running() && agent.phase.InTurn? && agent.phase.message.None?
      modifies agent`state, agent`phase, agent`trace
      ensures agent.Running() && agent.phase ==
        var p := old(agent.phase);
        InTurn(p.open + multiset{call.id}, None, p.batch.(started := p.batch.started + [call]))
      ensures agent.trace == old(agent.trace) + [ToolStart(call)]
      ensures agent.state.messages == old(agent.state.messages)
    {
      agent.ProcessEvents(ToolStart(call));
    }

    method EmitToolUpdate(call: ToolCall, partial: string)
      requires agent.Running() && agent.phase.InTurn? && agent.phase.message.None?
      requires call.id in agent.phase.open
      modifies agent`state, agent`phase, agent`trace
      ensures agent.Running() && agent.phase == old(agent.phase)
      ensures agent.trace == old(agent.trace) + [ToolUpdate(call, partial)]
      ensures agent.state.messages == old(agent.state.messages)
    {
      agent.ProcessEvents(ToolUpdate(call, partial));
    }

    method EmitToolExecutionEnd(f: Finalized)
      requires agent.Running() && agent.phase.InTurn? && agent.phase.message.None?
      requires f.call.id in agent.phase.open
      modifies agent`state, agent`phase, agent`trace
      ensures agent.Running() && agent.phase ==
        var p := old(agent.phase);
        InTurn(p.open - multiset{f.call.id}, None, p.batch.(ended := p.batch.ended + multiset{ResultMessage(f)}))
      ensures agent.trace == old(agent.trace) + [ToolEnd(f.call, f.output, f.isError)]
      ensures agent.state.messages == old(agent.state.messages)
    {
      agent.ProcessEvents(ToolEnd(f.call, f.output, f.isError));
    }

    method EmitResultMessage(f: Finalized) returns (message: ToolResultMessage)
      requires agent.Running() && agent.phase.InTurn? && agent.phase.message.None?
      modifies agent`state, agent`phase, agent`trace
      ensures agent.Running() && agent.phase == old(agent.phase)
      ensures agent.trace == old(agent.trace) + ResultEvents(message)
      ensures message == ResultMessage(f)
      ensures agent.state.messages == old(agent.state.messages) + [FromTool(message)]
    {
      message := ResultMessage(f);
      agent.ProcessEvents(MessageStart(FromTool(message)));
      agent.ProcessEvents(MessageEnd(FromTool(message)));
    }

    method FailToolCallsFromTruncatedMessage(calls: seq<ToolCall>) returns (messages: seq<ToolResultMessage>)
      requires agent.Running() && agent.phase == TURN_OPEN
      modifies agent`state, agent`phase, agent`trace
      ensures agent.Running() && agent.phase == ToolsRun(calls, messages)
      ensures messages == ResultMessages(seq(|calls|, k requires 0 <= k < |calls| => Truncated(calls[k])))
      ensures agent.state.messages == old(agent.state.messages) + ToolMessages(messages)
    {
      hide PhaseOf, ReduceAll, Next, Reduce, ToolsRun, ResultMessage, Truncated, ToolMessages;
      messages := [];
      NoSlots();
      NoResults();
      var outcomes := seq(|calls|, k requires 0 <= k < |calls| => Truncated(calls[k]));
      for i := 0 to |calls|
        invariant agent.Running() && agent.phase == ToolsRun(calls[..i], messages)
        invariant messages == ResultMessages(outcomes[..i])
        invariant agent.state.messages == old(agent.state.messages) + ToolMessages(messages)
      {
        var call, finalized := calls[i], outcomes[i];
        TruncatedAnswers(call);
        EmitToolStart(call);
        EmitToolExecutionEnd(finalized);
        var message := EmitResultMessage(finalized);
        assert outcomes[..i + 1] == outcomes[..i] + [finalized];
        OneMoreResult(outcomes[..i], finalized);
        OneMoreToolRun(calls, messages, i, message);
        messages := messages + [message];
      }
      assert outcomes[..|calls|] == outcomes;
      assert calls[..|calls|] == calls;
    }

    method EmitUpdates(call: ToolCall, partials: seq<string>)
      requires agent.Running() && agent.phase.InTurn? && agent.phase.message.None?
      requires call.id in agent.phase.open
      modifies agent`state, agent`phase, agent`trace
      ensures agent.Running() && agent.phase == old(agent.phase)
      ensures agent.trace == old(agent.trace) + Updates(call, partials)
      ensures agent.state.messages == old(agent.state.messages)
    {
      hide PhaseOf, ReduceAll, Next, Reduce;
      for u := 0 to |partials|
        invariant agent.Running() && agent.phase == old(agent.phase)
        invariant agent.trace == old(agent.trace) + Updates(call, partials[..u])
        invariant agent.state.messages == old(agent.state.messages)
      {
        EmitToolUpdate(call, partials[u]);
      }
      assert partials[..|partials|] == partials;
    }

    /** Prepares, executes and finalizes one call, with its execution events. */
    method ExecuteOne(call: ToolCall, inp: CallInput) returns (finalized: Finalized)
      requires agent.Running() && agent.phase.InTurn? && agent.phase.message.None? && agent.phase.open == multiset{}
      modifies agent`state, agent`phase, agent`trace, agent`aborted
      ensures agent.Running() && agent.phase ==
        var b := old(agent.phase).batch;
        InTurn(multiset{}, None, Batch(b.started + [call], b.ended + multiset{ResultMessage(finalized)}))
      ensures agent.trace == old(agent.trace) + CallEvents(call, inp, old(agent.aborted) || inp.abortInPrepare)
      ensures finalized == Outcome(call, inp, old(agent.aborted) || inp.abortInPrepare)
      ensures agent.aborted == (old(agent.aborted) || inp.abortInPrepare || inp.abortInCall)
      ensures agent.state.messages == old(agent.state.messages)
    {
      hide PhaseOf, ReduceAll, Next, Reduce, Updates, Finalize;
      EmitToolStart(call);
      agent.MayAbort(inp.abortInPrepare);
      var preparation := Prepare(call, inp, agent.aborted);
      if preparation.Immediate? {
        finalized := Finalized(call, preparation.output, true);
      } else {
        EmitUpdates(call, inp.updates);
        finalized := Finalize(call, inp);
      }
      agent.MayAbort(inp.abortInCall);
      EmitToolExecutionEnd(finalized);
    }

    method ExecuteToolCallsSequential(calls: seq<ToolCall>, inputs: nat -> CallInput)
      returns (finalizedCalls: seq<Finalized>, messages: seq<ToolResultMessage>)
      requires agent.Running() && agent.phase == TURN_OPEN
      modifies agent`state, agent`phase, agent`trace, agent`aborted
      ensures |messages| <= |calls|
      ensures agent.Running() && agent.phase == ToolsRun(calls[..|messages|], messages)
      ensures agent.trace == old(agent.trace) + SequentialEvents(calls, inputs, 0, old(agent.aborted))
      ensures finalizedCalls == AgentTools.Sequential(calls, inputs, 0, old(agent.aborted))
      ensures messages == ResultMessages(finalizedCalls)
      ensures NoAborts(inputs, |calls|) && !old(agent.aborted) ==> !agent.aborted
      ensures agent.state.messages == old(agent.state.messages) + ToolMessages(messages)
    {
      hide PhaseOf, ReduceAll, Next, Reduce, Outcome, ResultMessage, ResultMessages, ToolMessages,
           AgentTools.Sequential, CallEvents, ResultEvents, SequentialEvents, ToolsRun;
      NoSlots();
      NoResults();
      finalizedCalls, messages := [], [];
      var i := 0;
      ghost var events := SequentialEvents(calls, inputs, 0, agent.aborted);
      ghost var whole := AgentTools.Sequential(calls, inputs, 0, agent.aborted);
      while i < |calls|
        invariant i <= |calls|
        invariant |messages| == i
        invariant agent.Running() && agent.phase == ToolsRun(calls[..i], messages)
        invariant old(agent.trace) + events == agent.trace + SequentialEvents(calls, inputs, i, agent.aborted)
        invariant whole == finalizedCalls + AgentTools.Sequential(calls, inputs, i, agent.aborted)
        invariant messages == ResultMessages(finalizedCalls)
        invariant NoAborts(inputs, |calls|) && !old(agent.aborted) ==> !agent.aborted
        invariant agent.state.messages == old(agent.state.messages) + ToolMessages(messages)
      {
        label iteration:
        var finalized := ExecuteOne(calls[i], inputs(i));
        var message := EmitResultMessage(finalized);
        OneMoreResult(finalizedCalls, finalized);
        OneMoreToolRun(calls, messages, i, message);
        SequentialStep(calls, inputs, i, old@iteration(agent.aborted));
        Regroup(old@iteration(agent.trace),
                CallEvents(calls[i], inputs(i), old@iteration(agent.aborted) || inputs(i).abortInPrepare),
                ResultEvents(message), if agent.aborted then [] else SequentialEvents(calls, inputs, i + 1, agent.aborted));
        finalizedCalls := finalizedCalls + [finalized];
        messages := messages + [message];
        i := i + 1;
        if agent.aborted {
          return;
        }
      }
      SequentialEnd(calls, inputs, agent.aborted);
    }

    /** Prepares one call of a parallel batch; an immediate outcome ends it at once. */
    method PrepareOne(call: ToolCall, inp: CallInput, slots0: seq<Slot>) returns (slots: seq<Slot>)
      requires agent.Running() && agent.phase == BatchPhase(slots0)
      modifies agent`state, agent`phase, agent`trace, agent`aborted
      ensures agent.Running() && agent.phase == BatchPhase(slots)
      ensures agent.state.messages == old(agent.state.messages)
      ensures slots == slots0 + [SlotOf(EntryFor(call, inp, old(agent.aborted) || inp.abortInPrepare))]
      ensures agent.aborted == (old(agent.aborted) || inp.abortInPrepare || inp.abortInCall)
    {
      hide PhaseOf, ReduceAll, Next, Reduce, BatchPhase;
      EmitToolStart(call);
      agent.MayAbort(inp.abortInPrepare);
      var preparation := Prepare(call, inp, agent.aborted);
      if preparation.Immediate? {
        var finalized := Finalized(call, preparation.output, true);
        EmitToolExecutionEnd(finalized);
        slots := slots0 + [Done(finalized)];
        SlotReady(slots0, finalized);
      } else {
        slots := slots0 + [Slot.Waiting(call)];
        SlotWaits(slots0, call);
      }
      agent.MayAbort(inp.abortInCall);
    }

    /** The preparation loop of a parallel batch. */
    method PrepareParallel(calls: seq<ToolCall>, inputs: nat -> CallInput)
      returns (slots: seq<Slot>, ghost entries: seq<Entry>)
      requires agent.Running() && agent.phase == TURN_OPEN
      modifies agent`state, agent`phase, agent`trace, agent`aborted
      ensures agent.Running() && agent.phase == BatchPhase(slots)
      ensures agent.state.messages == old(agent.state.messages)
      ensures entries == Entries(calls, inputs, 0, old(agent.aborted))
      ensures agent.aborted == AbortedAfterEntries(calls, inputs, 0, old(agent.aborted))
      ensures |slots| == |entries| && forall k | 0 <= k < |slots| :: slots[k] == SlotOf(entries[k])
      ensures NoAborts(inputs, |calls|) && !old(agent.aborted) ==> !agent.aborted
      ensures |slots| <= |calls| && CallsIn(slots) == calls[..|slots|]
    {
      hide PhaseOf, ReduceAll, Next, Reduce, SumTo, EntryFor, Entries, AbortedAfterEntries, SlotOf;
      NoSlots();
      slots, entries := [], [];
      var i := 0;
      ghost var whole := Entries(calls, inputs, 0, agent.aborted);
      while i < |calls|
        invariant i <= |calls|
        invariant agent.Running() && agent.phase == BatchPhase(slots)
        invariant agent.state.messages == old(agent.state.messages)
        invariant whole == entries + Entries(calls, inputs, i, agent.aborted)
        invariant AbortedAfterEntries(calls, inputs, 0, old(agent.aborted))
               == AbortedAfterEntries(calls, inputs, i, agent.aborted)
        invariant |slots| == |entries| && forall k | 0 <= k < |slots| :: slots[k] == SlotOf(entries[k])
        invariant |slots| == i && CallsIn(slots) == calls[..i]
        invariant NoAborts(inputs, |calls|) && !old(agent.aborted) ==> !agent.aborted
      {
        EntriesStep(calls, inputs, i, agent.aborted);
        entries := entries + [EntryFor(calls[i], inputs(i), agent.aborted || inputs(i).abortInPrepare)];
        ghost var before, raised := slots, agent.aborted;
        slots := PrepareOne(calls[i], inputs(i), slots);
        EntrySlot(calls[i], inputs(i), raised || inputs(i).abortInPrepare);
        CallEnters(before, slots[i], calls, i);
        i := i + 1;
        if agent.aborted {
          return;
        }
      }
      EntriesEnd(calls, inputs, agent.aborted);
    }

    /** Starts the tool of slot `j`, if one waits there. */
    method StartOne(slots0: seq<Slot>, j: nat, ghost e: Entry, inp: CallInput) returns (slots: seq<Slot>)
      requires agent.Running() && agent.phase == BatchPhase(slots0)
      requires j < |slots0| && slots0[j] == SlotOf(e)
      modifies agent`state, agent`phase, agent`trace, agent`aborted
      ensures agent.Running() && agent.phase == BatchPhase(slots)
      ensures agent.state.messages == old(agent.state.messages)
      ensures |slots| == |slots0| && slots == slots0[j := slots[j]]
      ensures CallsIn(slots) == CallsIn(slots0)
      ensures SlotLeadsTo(slots[j], EntryOutcome(e, inp, old(agent.aborted)), inp)
      ensures agent.aborted == (old(agent.aborted) || (e.Waiting? && inp.abortAtStart))
    {
      hide PhaseOf, ReduceAll, Next, Reduce, BatchPhase;
      slots := slots0;
      if slots[j].Waiting? {
        var call := slots[j].call;
        if agent.aborted {
          var finalized := Finalized(call, ErrorOutput(OperationAborted), true);
          SlotEnds(slots, j, finalized);
          slots := slots[j := Done(finalized)];
          EmitToolExecutionEnd(finalized);
        } else {
          SlotGoesOn(slots, j, Slot.Executing(call));
          slots := slots[j := Slot.Executing(call)];
          agent.MayAbort(inp.abortAtStart);
        }
      }
    }

    /** Starts every waiting tool in order; those reached with the signal raised end as aborted. */
    method StartParallel(slots0: seq<Slot>, ghost entries: seq<Entry>, inputs: nat -> CallInput)
      returns (slots: seq<Slot>, ghost outcomes: seq<Finalized>)
      requires agent.Running() && agent.phase == BatchPhase(slots0)
      requires |slots0| == |entries| && forall k | 0 <= k < |slots0| :: slots0[k] == SlotOf(entries[k])
      modifies agent`state, agent`phase, agent`trace, agent`aborted
      ensures agent.Running() && agent.phase == BatchPhase(slots)
      ensures agent.state.messages == old(agent.state.messages)
      ensures outcomes == Outcomes(entries, inputs, 0, old(agent.aborted))
      ensures NoAborts(inputs, |slots0|) && !old(agent.aborted) ==> !agent.aborted
      ensures SlotsLeadTo(slots, outcomes, inputs) && CallsIn(slots) == CallsIn(slots0)
    {
      hide PhaseOf, ReduceAll, Next, Reduce, BatchPhase, EntryOutcome, SlotLeadsTo, Outcomes;
      slots, outcomes := slots0, [];
      assert entries[0..] == entries;
      for j := 0 to |slots0|
        invariant agent.Running() && agent.phase == BatchPhase(slots)
        invariant agent.state.messages == old(agent.state.messages)
        invariant NoAborts(inputs, |slots0|) && !old(agent.aborted) ==> !agent.aborted
        invariant |slots| == |slots0| && |outcomes| == j && CallsIn(slots) == CallsIn(slots0)
        invariant forall k | j <= k < |slots| :: slots[k] == slots0[k]
        invariant Outcomes(entries, inputs, 0, old(agent.aborted))
               == outcomes + Outcomes(entries[j..], inputs, j, agent.aborted)
        invariant forall k | 0 <= k < j :: SlotLeadsTo(slots[k], outcomes[k], inputs(k))
      {
        outcomes := outcomes + [EntryOutcome(entries[j], inputs(j), agent.aborted)];
        OutcomesStep(entries, inputs, j, agent.aborted);
        slots := StartOne(slots, j, entries[j], inputs(j));
      }
      OutcomesOfNone(inputs, |slots0|, agent.aborted);
      assert entries[|slots0|..] == [];
    }

    /** Runs the started tools in the order the schedule gives, until all are done or the schedule ends. */
    method CompleteParallel(slots0: seq<Slot>, ghost outcomes: seq<Finalized>, inputs: nat -> CallInput,
                            schedule: seq<Completion>)
      returns (slots: seq<Slot>)
      requires agent.Running() && agent.phase == BatchPhase(slots0)
      requires SlotsLeadTo(slots0, outcomes, inputs)
      modifies agent`state, agent`phase, agent`trace
      ensures agent.Running() && agent.phase == BatchPhase(slots)
      ensures agent.state.messages == old(agent.state.messages)
      ensures SlotsLeadTo(slots, outcomes, inputs) && CallsIn(slots) == CallsIn(slots0)
      ensures slots == SlotsAfter(slots0, schedule, inputs)
      ensures agent.trace == old(agent.trace) + SlotsEmit(slots0, schedule, inputs)
    {
      hide PhaseOf, ReduceAll, Next, Reduce, SlotAfter, SlotEmits, SlotsAfter, SlotsEmit, SlotsLeadTo, BatchPhase, CallsIn;
      slots := slots0;
      NoCompletions(slots, inputs);
      assert schedule[..0] == [] && agent.trace + [] == agent.trace;
      for i := 0 to |schedule|
        invariant slots == SlotsAfter(slots0, schedule[..i], inputs)
        invariant agent.trace == old(agent.trace) + SlotsEmit(slots0, schedule[..i], inputs)
        invariant agent.Running() && agent.phase == BatchPhase(slots)
        invariant agent.state.messages == old(agent.state.messages)
        invariant SlotsLeadTo(slots, outcomes, inputs) && CallsIn(slots) == CallsIn(slots0)
      {
        var step := schedule[i];
        assert schedule[..i + 1] == schedule[..i] + [step];
        OneMoreCompletion(slots0, schedule[..i], step, inputs);
        if step.k < |slots| {
          slots := CompleteStep(slots, outcomes, inputs, step);
        }
      }
      assert schedule[..|schedule|] == schedule;
    }

    /** One event of a concurrent tool; what a tool reports after settling is dropped. */
    method CompleteStep(slots0: seq<Slot>, ghost outcomes: seq<Finalized>, inputs: nat -> CallInput, step: Completion)
      returns (slots: seq<Slot>)
      requires agent.Running() && agent.phase == BatchPhase(slots0)
      requires SlotsLeadTo(slots0, outcomes, inputs) && step.k < |slots0|
      modifies agent`state, agent`phase, agent`trace
      ensures agent.Running() && agent.phase == BatchPhase(slots)
      ensures agent.state.messages == old(agent.state.messages)
      ensures SlotsLeadTo(slots, outcomes, inputs) && CallsIn(slots) == CallsIn(slots0)
      ensures slots == slots0[step.k := SlotAfter(slots0[step.k], step, inputs(step.k))]
      ensures agent.trace == old(agent.trace) + SlotEmits(slots0[step.k], step, inputs(step.k))
    {
      hide PhaseOf, ReduceAll, Next, Reduce, BatchPhase;
      slots := slots0;
      var slot := slots[step.k];
      if step.Progress? && slot.Executing? {
        SlotGoesOn(slots, step.k, slot);
        EmitToolUpdate(slot.call, step.partial);
      } else if step.Settle? && slot.Executing? {
        SlotGoesOn(slots, step.k, Slot.Executed(slot.call));
        slots := slots[step.k := Slot.Executed(slot.call)];
      } else if step.Finish? && slot.Executed? {
        var finalized := Finalize(slot.call, inputs(step.k));
        SlotEnds(slots, step.k, finalized);
        slots := slots[step.k := Done(finalized)];
        EmitToolExecutionEnd(finalized);
      }
    }

    /** Runs the tool calls of a message in the mode they call for; not done if a tool never ends. */
    method ExecuteToolCalls(calls: seq<ToolCall>, inp: TurnInput)
      returns (messages: seq<ToolResultMessage>, terminate: bool, done: bool)
      requires agent.Running() && agent.phase == TURN_OPEN && calls != []
      modifies agent`state, agent`phase, agent`trace, agent`aborted
      ensures agent.Running()
      ensures done ==> |messages| <= |calls| && agent.phase == ToolsRun(calls[..|messages|], messages)
      ensures done ==>
        BatchResult(calls, false, SequentialBatch(agent.sequentialTools, calls, inp.calls), inp.calls,
                    old(agent.aborted), messages, !terminate)
      ensures done ==> agent.state.messages == old(agent.state.messages) + ToolMessages(messages)
      ensures OneAfterOther(calls, inp, agent.sequentialTools) ==>
        done && agent.trace == old(agent.trace) + SequentialEvents(calls, inp.calls, 0, old(agent.aborted))
      ensures NoAborts(inp.calls, |calls|) && !old(agent.aborted) ==> !agent.aborted
      ensures !done ==> agent.phase.InTurn? && agent.state.messages == old(agent.state.messages)
    {
      hide PhaseOf, ReduceAll, Next, Reduce, SumTo, BatchPhase, AgentTools.Sequential, Outcomes, Entries;
      var sequential := agent.sequentialTools || exists k: nat | k < |calls| :: inp.calls(k).sequentialTool;
      if sequential {
        var finalizedCalls: seq<Finalized>;
        finalizedCalls, messages := ExecuteToolCallsSequential(calls, inp.calls);
        return messages, ShouldTerminate(finalizedCalls), true;
      }
      var slots, entries := PrepareParallel(calls, inp.calls);
      ghost var outcomes;
      slots, outcomes := StartParallel(slots, entries, inp.calls);
      slots := CompleteParallel(slots, outcomes, inp.calls, inp.schedule);
      if exists k | 0 <= k < |slots| :: !slots[k].Done? {
        return [], false, false;
      }
      var ordered := seq(|slots|, k requires 0 <= k < |slots| => slots[k].outcome);
      assert ordered == outcomes by {
        forall k | 0 <= k < |slots| ensures ordered[k] == outcomes[k] {
          assert SlotLeadsTo(slots[k], outcomes[k], inp.calls(k));
        }
      }
      BatchIsDone(slots, ordered);
      messages := EmitResultMessages(ordered);
      return messages, ShouldTerminate(ordered), true;
    }

    method EmitResultMessages(ordered: seq<Finalized>) returns (messages: seq<ToolResultMessage>)
      requires agent.Running() && agent.phase.InTurn? && agent.phase.message.None?
      modifies agent`state, agent`phase, agent`trace
      ensures agent.Running() && agent.phase == old(agent.phase)
      ensures messages == ResultMessages(ordered)
      ensures agent.state.messages == old(agent.state.messages) + ToolMessages(messages)
    {
      hide PhaseOf, ReduceAll, Next, Reduce, ResultMessage, ResultMessages, ToolMessages;
      NoResults();
      messages := [];
      for i := 0 to |ordered|
        invariant agent.Running() && agent.phase == old(agent.phase)
        invariant messages == ResultMessages(ordered[..i])
        invariant agent.state.messages == old(agent.state.messages) + ToolMessages(messages)
      {
        var message := EmitResultMessage(ordered[i]);
        OneMoreResult(ordered[..i], ordered[i]);
        assert ordered[..i + 1] == ordered[..i] + [ordered[i]];
        messages := messages + [message];
      }
      assert ordered[..|ordered|] == ordered;
    }

    // ---- Turns ----

    /** A turn has begun and a tool keeps it from ending: its injected messages and its response are in every view. */
    ghost predicate MidTurn()
      requires |log| <= |origin.script.turns|
      reads this, agent, agent.steeringQueue, agent.followUpQueue
    {
      && |log| < |origin.script.turns| && agent.phase.InTurn?
      && var h := HeldAt(origin, log, |log|);
         && agent.QueuesNow() == h.queues && pendingFrom == h.source && injecting == h.messages && pending == []
         && newMessages == prompts + LogMessages(log) + injecting + [FromAssistant(origin.script.turns[|log|].stream.final)]
    }

    /** The run is waiting, between turns for the next input or inside a turn: its views agree, its events are grammatical
        so far, and so far everything is accounted for. */
    ghost predicate Suspended()
      reads this, agent, agent.steeringQueue, agent.followUpQueue
    {
      && Ready() && ViewsAgree() && !agent.phase.Broken?
      && Recorded(Begun()) && Conserved(injecting)
      && (MidTurn() || (newMessages == prompts + LogMessages(log) && injecting == [] && Polled()))
    }

    /** The last completed turn lets the pending messages start another one. */
    ghost predicate MayFollow()
      reads this
    {
      log != [] ==>
        var last := log[|log| - 1];
        && !last.halted
        && (pending == [] ==> last.more)
        && (pendingFrom.FollowUps? ==> !last.more)
    }

    /** The next turn of the record may begin: the last one lets it, and what it injects is held. */
    ghost predicate MayBegin()
      reads this, agent, agent.steeringQueue, agent.followUpQueue
    {
      && |log| < |origin.script.turns|
      && Holds(HeldAt(origin, log, |log|)) && (log != [] ==> LetsGoOn(origin, log, |log| - 1))
    }

    /** Puts the results of a batch into the context and the new messages. */
    method AppendResults(results: seq<ToolResultMessage>)
      requires ContextIs(Base(base, baseAt))
      modifies this`context, this`newMessages
      ensures ContextIs(Base(base, baseAt))
      ensures newMessages == old(newMessages) + ToolMessages(results)
    {
      for i := 0 to |results|
        invariant ContextIs(Base(base, baseAt))
        invariant newMessages == old(newMessages) + ToolMessages(results[..i])
      {
        assert ToolMessages(results[..i + 1]) == ToolMessages(results[..i]) + [FromTool(results[i])];
        context := context + [FromTool(results[i])];
        newMessages := newMessages + [FromTool(results[i])];
      }
      assert results[..|results|] == results;
    }

    /** The tool calls of a turn, if any: their results in every view, and whether they want another turn. */
    method RunTools(message: AssistantMessage, inp: TurnInput)
      returns (results: seq<ToolResultMessage>, more: bool, done: bool)
      requires agent.Running() && ViewsAgree() && agent.phase == TURN_OPEN
      modifies this`context, this`newMessages, agent`state, agent`phase, agent`trace, agent`aborted
      ensures agent.Running() && ViewsAgree()
      ensures done ==> |results| <= |message.ToolCalls()|
                       && agent.phase == ToolsRun(message.ToolCalls()[..|results|], results)
      ensures done ==> newMessages == old(newMessages) + ToolMessages(results)
      ensures done ==> var calls := message.ToolCalls();
        BatchResult(calls, message.stop.Length?, SequentialBatch(agent.sequentialTools, calls, inp.calls),
                    inp.calls, old(agent.aborted), results, more)
      ensures var calls := message.ToolCalls();
        calls != [] && !message.stop.Length? && OneAfterOther(calls, inp, agent.sequentialTools) ==>
        done && agent.trace == old(agent.trace) + SequentialEvents(calls, inp.calls, 0, old(agent.aborted))
      ensures NoAborts(inp.calls, |message.ToolCalls()|) && !old(agent.aborted) ==> !agent.aborted
      ensures !done ==> agent.phase.InTurn? && newMessages == old(newMessages)
    {
      hide PhaseOf, ReduceAll, Next, Reduce, CallsOf, AgentTools.Sequential, Parallel, SequentialBatch, BatchResult,
           ToolsRun, ResultMessages, ToolMessages, Truncated;
      NoResults();
      var calls := message.ToolCalls();
      NoSlots();
      NoBatch(message.stop.Length?, SequentialBatch(agent.sequentialTools, [], inp.calls), inp.calls, agent.aborted);
      if calls == [] {
        return [], false, true;
      }
      if message.stop.Length? {
        results := FailToolCallsFromTruncatedMessage(calls);
        assert calls[..|calls|] == calls;
        TruncatedBatch(calls, SequentialBatch(agent.sequentialTools, calls, inp.calls), inp.calls, agent.aborted, results);
        more, done := true, true;
      } else {
        var terminate;
        results, terminate, done := ExecuteToolCalls(calls, inp);
        more := !terminate;
      }
      if done { AppendResults(results); }
    }

    method EmitTurnEnd(message: AssistantMessage, results: seq<ToolResultMessage>)
      requires agent.Running() && Next(agent.phase, TurnEnd(message, results)) == BetweenTurns
      modifies agent`state, agent`phase, agent`trace
      ensures agent.Running() && agent.phase == BetweenTurns && agent.state.messages == old(agent.state.messages)
    {
      hide PhaseOf, ReduceAll, Reduce, Next;
      agent.ProcessEvents(TurnEnd(message, results));
      TurnEndKeepsMessages(old(agent.state), TurnEnd(message, results));
    }

    /** Enters a turn that has ended in the record. */
    ghost method LogTurn(t: Turn)
      requires Ready() && ViewsAgree() && agent.phase == BetweenTurns && Recorded(|log| + 1)
      requires |log| < |origin.script.turns|
      requires pending == injecting == [] && Conserved(t.injected) && t.source == pendingFrom
      requires newMessages == prompts + LogMessages(log) + TurnMessages(t)
      requires Injects(t, HeldAt(origin, log, |log|))
      requires TurnFollows(t, origin.script.turns[|log|], agent.sequentialTools)
      requires t.aborted ==> RaisedBefore(origin.script.turns, |log|)
      requires agent.aborted ==> RaisedBefore(origin.script.turns, |log| + 1)
      requires log != [] ==> GoesOn(log[|log| - 1], t)
      requires log != [] ==> LetsGoOn(origin, log, |log| - 1)
      modifies this`log
      ensures Inv() && log == old(log) + [t]
      ensures HeldAt(origin, log, |old(log)|) == old(HeldAt(origin, log, |log|))
    {
      hide PhaseOf, ReduceAll, LogMessages, InjectedFrom, TurnMessages, TurnFollows, DeliveredOf, Gone, LogFollows,
           LogPolls, LogWentOn, LetsGoOn, HeldAt, BaseAfter, RaisedBefore, Injects, GoesOn;
      LogOneMore(log, t);
      FollowsMore(log, origin.script.turns, agent.sequentialTools, t);
      PollsMore(origin, log, t);
      WentOnMore(origin, log, t);
      BasePrefix(agent.start.messages, prompts, origin.script.turns, log, t, |log| + 1);
      Append(prompts, LogMessages(log), TurnMessages(t));
      Append(steeredBefore, InjectedFrom(log, Steering), if t.source.Steering? then t.injected else []);
      Append(followedBefore, InjectedFrom(log, FollowUps), if t.source.FollowUps? then t.injected else []);
      Append(t.injected, [], []);
      log := log + [t];
    }

    /** Emits `turn_end` and enters the turn in the record. */
    method CloseTurn(message: AssistantMessage, results: seq<ToolResultMessage>, ghost t: Turn)
      requires t.assistant == message && t.results == results
      requires Ready() && ViewsAgree() && Recorded(|log| + 1)
      requires |results| <= |message.ToolCalls()|
      requires agent.phase == ToolsRun(message.ToolCalls()[..|results|], results)
      requires pending == injecting == [] && Conserved(t.injected) && t.source == pendingFrom
      requires newMessages == prompts + LogMessages(log) + TurnMessages(t)
      requires |log| < |origin.script.turns| && Injects(t, HeldAt(origin, log, |log|))
      requires TurnFollows(t, origin.script.turns[|log|], agent.sequentialTools)
      requires t.aborted ==> RaisedBefore(origin.script.turns, |log|)
      requires agent.aborted ==> RaisedBefore(origin.script.turns, |log| + 1)
      requires log != [] ==> GoesOn(log[|log| - 1], t)
      requires log != [] ==> LetsGoOn(origin, log, |log| - 1)
      modifies this`log, agent`state, agent`phase, agent`trace
      ensures Inv() && agent.phase == BetweenTurns && log == old(log) + [t]
      ensures HeldAt(origin, log, |old(log)|) == old(HeldAt(origin, log, |log|))
    {
      hide PhaseOf, ReduceAll, Next, Reduce, LogMessages, InjectedFrom, TurnMessages, TurnFollows, DeliveredOf, Gone,
           LogFollows, LogPolls, LogWentOn, LetsGoOn, HeldAt, BaseAfter, RaisedBefore, Injects, ToolsRun, CallsOf,
           GoesOn, Inv;
      MayEnd(t, origin.script.turns[|log|], agent.sequentialTools);
      EmitTurnEnd(message, results);
      LogTurn(t);
    }

    /** Ends a turn whose messages are in every view: it is one the record may continue with. */
    method FinishTurn(inp: TurnInput, message: AssistantMessage, results: seq<ToolResultMessage>, more: bool, halted: bool,
                      ghost h: Held, ghost signal: bool)
      requires Ready() && ViewsAgree() && Recorded(|log| + 1)
      requires |results| <= |message.ToolCalls()|
      requires agent.phase == ToolsRun(message.ToolCalls()[..|results|], results)
      requires pending == injecting == [] && Conserved(h.messages) && h.source == pendingFrom
      requires newMessages ==
               prompts + LogMessages(log) + h.messages + [FromAssistant(message)] + ToolMessages(results)
      requires |log| < |origin.script.turns| && origin.script.turns[|log|] == inp && h == HeldAt(origin, log, |log|)
      requires message == inp.stream.final && halted == (message.Broken() || inp.shouldStop)
      requires message.Broken() ==> results == [] && !more
      requires !message.Broken() ==> var calls := message.ToolCalls();
        BatchResult(calls, message.stop.Length?, SequentialBatch(agent.sequentialTools, calls, inp.calls), inp.calls,
                    signal, results, more)
      requires signal ==> RaisedBefore(origin.script.turns, |log|)
      requires agent.aborted ==> RaisedBefore(origin.script.turns, |log| + 1)
      requires log != [] ==>
        var last := log[|log| - 1];
        && !last.halted && (h.messages == [] ==> last.more) && (h.source.FollowUps? ==> !last.more)
      requires log != [] ==> LetsGoOn(origin, log, |log| - 1)
      modifies this`log, agent`state, agent`phase, agent`trace
      ensures Inv() && agent.phase == BetweenTurns
      ensures |log| == |old(log)| + 1 && log[..|old(log)|] == old(log)
      ensures HeldAt(origin, log, |old(log)|) == old(HeldAt(origin, log, |log|))
      ensures log[|old(log)|].more == more && log[|old(log)|].halted == halted
    {
      hide PhaseOf, ReduceAll, Next, Reduce, SlotsFrom, CallsOf, BatchResult, LogMessages, InjectedFrom,
           ToolMessages, SequentialBatch, ToolsRun, DeliveredOf, Gone, LogFollows, LogPolls, LogWentOn, LetsGoOn,
           HeldAt, BaseAfter, RaisedBefore, Inv;
      ghost var t := Turn(h.source, h.mode, h.messages, message, signal, results, more, halted);
      assert newMessages == prompts + LogMessages(log) + TurnMessages(t);
      CloseTurn(message, results, t);
    }

    /** Injects the pending messages and streams the assistant's response into every view. */
    method Respond(s: StreamInput) returns (message: AssistantMessage)
      requires agent.Running() && ViewsAgree() && agent.phase == TURN_OPEN && AtMostOneStart(s)
      modifies this`context, this`newMessages, this`pending, agent`state, agent`phase, agent`trace
      ensures agent.Running() && ViewsAgree() && agent.phase == TURN_OPEN
      ensures message == s.final && pending == []
      ensures newMessages == old(newMessages) + old(pending) + [FromAssistant(message)]
    {
      hide PhaseOf, ReduceAll, Next, Reduce, SlotsFrom;
      InjectPending();
      message := StreamAssistantResponse(s);
      NothingStale(s);
      newMessages := newMessages + [FromAssistant(message)];
    }

    /** What follows a response: nothing if it is broken, else its tool calls. */
    method Answer(message: AssistantMessage, inp: TurnInput)
      returns (results: seq<ToolResultMessage>, more: bool, halted: bool, done: bool)
      requires agent.Running() && ViewsAgree() && agent.phase == TURN_OPEN
      modifies this`context, this`newMessages, agent`state, agent`phase, agent`trace, agent`aborted
      ensures agent.Running() && ViewsAgree()
      ensures done ==> |results| <= |message.ToolCalls()|
                       && agent.phase == ToolsRun(message.ToolCalls()[..|results|], results)
      ensures done ==> newMessages == old(newMessages) + ToolMessages(results)
      ensures done ==> halted == (message.Broken() || inp.shouldStop)
      ensures message.Broken() ==> done && results == [] && !more
      ensures done && !message.Broken() ==> var calls := message.ToolCalls();
        BatchResult(calls, message.stop.Length?, SequentialBatch(agent.sequentialTools, calls, inp.calls),
                    inp.calls, old(agent.aborted), results, more)
      ensures NoAborts(inp.calls, |message.ToolCalls()|) && !old(agent.aborted) ==> !agent.aborted
      ensures !done ==> agent.phase.InTurn? && newMessages == old(newMessages)
    {
      hide PhaseOf, ReduceAll, Next, Reduce, CallsOf, SequentialBatch, BatchResult, ToolsRun, ToolMessages;
      if message.Broken() {
        NoResults();
        NoSlots();
        return [], false, true, true;
      }
      results, more, done := RunTools(message, inp);
      halted := inp.shouldStop;
    }

    /** A tool that never ends keeps the turn from ending. */
    ghost method StayInTurn(h: Held)
      requires Ready() && ViewsAgree() && agent.phase.InTurn? && Recorded(|log| + 1)
      requires |log| < |origin.script.turns| && h == HeldAt(origin, log, |log|)
      requires agent.QueuesNow() == h.queues && pendingFrom == h.source && pending == [] && Conserved(h.messages)
      requires newMessages ==
               prompts + LogMessages(log) + h.messages + [FromAssistant(origin.script.turns[|log|].stream.final)]
      modifies this`injecting
      ensures Suspended()
    {
      hide PhaseOf, ReduceAll, LogMessages, InjectedFrom, LogFollows, LogPolls, LogWentOn, LetsGoOn, HeldAt,
           BaseAfter, DeliveredOf, Gone;
      injecting := h.messages;
    }

    /** One turn, from the pending messages to `turn_end`. */
    method RunTurn(inp: TurnInput) returns (done: bool, more: bool, halted: bool)
      requires Inv() && MayFollow() && agent.phase == TURN_OPEN
      requires |log| < |origin.script.turns| && origin.script.turns[|log|] == inp && AtMostOneStart(inp.stream)
      requires MayBegin()
      modifies this`context, this`newMessages, this`pending, this`log, this`injecting
      modifies agent`state, agent`phase, agent`trace, agent`aborted
      ensures done ==> Inv() && agent.phase == BetweenTurns && pending == []
      ensures done ==> |log| == |old(log)| + 1 && log[..|old(log)|] == old(log)
      ensures done ==> HeldAt(origin, log, |old(log)|) == old(HeldAt(origin, log, |log|))
      ensures done ==> log[|old(log)|].more == more && log[|old(log)|].halted == halted
      ensures !done ==> Suspended()
    {
      hide PhaseOf, ReduceAll, Next, Reduce, SlotsFrom, CallsOf, BatchResult, LogMessages, InjectedFrom,
           ToolMessages, TurnFollows, SequentialBatch, ToolsRun, DeliveredOf, Gone, LogFollows, LogPolls, LogWentOn,
           LetsGoOn, HeldAt, BaseAfter, RaisedBefore, Polled, Suspended, Recorded;
      ghost var h, signal := HeldAt(origin, log, |log|), agent.aborted;
      var message := Respond(inp.stream);
      var results;
      results, more, halted, done := Answer(message, inp);
      Append(h.messages, [], []);
      Append([], h.messages, []);
      if !done {
        StayInTurn(h);
        return;
      }
      RaisedLater(origin.script.turns, |log|);
      FinishTurn(inp, message, results, more, halted, h, signal);
    }

    // ---- The run ----

    /** Picks up steering queued before the run or, with nothing pending, while the next turn was prepared. */
    method PollForTurn(ops: seq<QueueOp>)
      requires Ready() && Conserved([]) && (skipInitialPoll ==> pending == [])
      modifies this`pending, this`pendingFrom, this`pendingMode, this`skipInitialPoll
      modifies agent.steeringQueue, agent.followUpQueue
      ensures Ready() && Conserved([]) && !skipInitialPoll
      ensures old(skipInitialPoll) ==> Holds(First(old(agent.QueuesNow()), ops, true))
      ensures !old(skipInitialPoll) ==> Holds(ForNextTurn(old(HeldNow()), ops))
      ensures if old(pending) == [] then pendingFrom.Steering?
              else pending == old(pending) && pendingFrom == old(pendingFrom)
    {
      hide PhaseOf, ReduceAll, InjectedFrom, DeliveredOf, Gone, OpsDone;
      agent.Apply(ops);
      if |pending| == 0 {
        pending := PollSteering();
        pendingFrom, pendingMode := Steering, agent.steeringQueue.mode;
        assert [] + pending == pending;
      }
    }

    method DrainFollowUps() returns (drained: seq<Message>)
      requires agent.QueuesValid()
      modifies agent.followUpQueue
      ensures agent.QueuesValid()
      ensures agent.followUpQueue.Delivered() == old(agent.followUpQueue.Delivered()) + drained
      ensures Held(agent.QueuesNow(), FollowUps, agent.followUpQueue.mode, drained)
           == Poll(old(agent.QueuesNow()), FollowUps)
    {
      drained := agent.followUpQueue.Drain();
    }

    /** Asks for follow-ups when the agent would stop. */
    method PollFollowUps(ops: seq<QueueOp>)
      requires Ready() && Conserved([]) && pending == [] && !skipInitialPoll
      modifies this`pending, this`pendingFrom, this`pendingMode, agent.steeringQueue, agent.followUpQueue
      ensures Ready() && Conserved([])
      ensures Holds(Poll(OpsDone(old(agent.QueuesNow()), ops), FollowUps))
    {
      hide PhaseOf, ReduceAll, InjectedFrom, DeliveredOf, Gone, OpsDone, Poll;
      agent.Apply(ops);
      pending := DrainFollowUps();
      pendingFrom, pendingMode := FollowUps, agent.followUpQueue.mode;
      Append([], pending, []);
    }

    /** What a finished run has done: the views agree, nothing is pending, and it had a reason to stop. */
    ghost predicate Complete()
      reads this, agent, agent.steeringQueue, agent.followUpQueue
    {
      && Ready() && ViewsAgree() && agent.phase == Phase.Finished
      && EndsWith(agent.trace, AgentEnd(newMessages))
      && pending == injecting == [] && Conserved([])
      && newMessages == prompts + LogMessages(log) && Recorded(Begun())
      && Ended(origin, log, agent.QueuesNow())
    }

    method EmitTurnStart()
      requires agent.Running() && (agent.phase.BetweenTurns? || agent.phase.BeforeFirstTurn?)
      modifies agent`state, agent`phase, agent`trace
      ensures agent.Running() && agent.phase == TURN_OPEN && agent.state.messages == old(agent.state.messages)
    {
      agent.ProcessEvents(TurnStart);
    }

    method EmitAgentEnd()
      requires agent.Running() && agent.phase == BetweenTurns
      modifies agent`state, agent`phase, agent`trace
      ensures agent.Running() && agent.phase == Phase.Finished && agent.state.messages == old(agent.state.messages)
      ensures EndsWith(agent.trace, AgentEnd(newMessages))
    {
      agent.ProcessEvents(AgentEnd(newMessages));
    }

    method PrepareNextTurn(newContext: Option<seq<Message>>)
      requires ViewsAgree()
      modifies this`context, this`base, this`baseAt
      ensures ViewsAgree()
      ensures newContext.Some? ==> context == base == newContext.value && baseAt == |newMessages|
      ensures newContext.None? ==> context == old(context) && base == old(base) && baseAt == old(baseAt)
    {
      if newContext.Some? {
        context := newContext.value;
        base, baseAt := newContext.value, |newMessages|;
      }
    }

    /** Before another turn: the context may be replaced, steering is asked for if nothing is pending. */
    method BeginNextTurn(inp: TurnInput)
      requires Inv() && MayFollow() && log != [] && agent.phase == BetweenTurns && Polled() && !skipInitialPoll
      requires |log| < |origin.script.turns| && origin.script.turns[|log|] == inp
      modifies this`context, this`base, this`baseAt, this`pending, this`pendingFrom, this`pendingMode
      modifies this`skipInitialPoll, agent`state, agent`phase, agent`trace, agent.steeringQueue, agent.followUpQueue
      ensures Inv() && MayFollow() && agent.phase == TURN_OPEN
      ensures MayBegin()
    {
      hide PhaseOf, ReduceAll, Next, Reduce, LogMessages, InjectedFrom, LogFollows, LogPolls, LogWentOn, LetsGoOn,
           DeliveredOf, Gone, OpsDone, RaisedBefore, HeldAt, BaseAfter, ForNextTurn, IsPolled;
      HeldNext(origin, log, HeldNow());
      PolledLetsGoOn(origin, log, HeldNow());
      BaseNext(agent.start.messages, prompts, origin.script.turns, log);
      PrepareNextTurn(inp.newContext);
      PollForTurn(inp.whilePreparing);
      EmitTurnStart();
    }

    /** The end of a run that was halted or has nothing left to do. */
    method EndRun()
      requires Inv() && agent.phase == BetweenTurns && pending == []
      requires Ended(origin, log, agent.QueuesNow())
      modifies agent`state, agent`phase, agent`trace
      ensures Complete()
    {
      hide PhaseOf, ReduceAll, LogMessages, InjectedFrom, LogFollows, LogPolls, LogWentOn, LetsGoOn, BaseAfter,
           Ended, DeliveredOf, Gone, RaisedBefore;
      EmitAgentEnd();
    }

    /** The poll for steering after a turn. */
    method PollAfterTurn(inp: TurnInput)
      requires Inv() && log != [] && agent.phase == BetweenTurns && pending == [] && !skipInitialPoll
      requires origin.script.turns[|log| - 1] == inp
      requires agent.QueuesNow() == HeldAt(origin, log, |log| - 1).queues
      modifies this`pending, this`pendingFrom, this`pendingMode, this`skipInitialPoll
      modifies agent.steeringQueue, agent.followUpQueue
      ensures Inv() && Polled() && pendingFrom.Steering? && !skipInitialPoll
    {
      hide PhaseOf, ReduceAll, LogMessages, InjectedFrom, LogFollows, LogPolls, LogWentOn, LetsGoOn, HeldAt,
           BaseAfter, DeliveredOf, Gone, OpsDone, RaisedBefore;
      PollForTurn(inp.whileRunning);
    }

    /** One iteration of the inner loop: a turn, then the end of the run or a poll for steering. */
    method Iterate(inp: TurnInput, lastCompletedTurn: bool) returns (done: bool, more: bool, halted: bool)
      requires Inv() && MayFollow() && Polled() && !skipInitialPoll
      requires |log| < |origin.script.turns| && origin.script.turns[|log|] == inp && AtMostOneStart(inp.stream)
      requires lastCompletedTurn == (log != [])
      requires agent.phase == if log == [] then TURN_OPEN else BetweenTurns
      modifies this`context, this`newMessages, this`pending, this`log, this`injecting, this`base, this`baseAt
      modifies this`pendingFrom, this`pendingMode, this`skipInitialPoll
      modifies agent`state, agent`phase, agent`trace, agent`aborted, agent.steeringQueue, agent.followUpQueue
      ensures done && halted ==> Complete()
      ensures done && !halted ==>
        Inv() && agent.phase == BetweenTurns && Polled() && pendingFrom.Steering? && !skipInitialPoll
      ensures done && !halted ==>
        |log| == old(|log|) + 1 && !log[|log| - 1].halted && log[|log| - 1].more == more
      ensures !done ==> Suspended()
    {
      hide PhaseOf, ReduceAll, Next, Reduce, SlotsFrom, LogMessages, InjectedFrom, LogFollows, LogPolls, LogWentOn,
           LetsGoOn, BaseAfter, HeldAt, AtMostOneStart, DeliveredOf, Gone, Complete, Suspended, RaisedBefore;
      if lastCompletedTurn {
        BeginNextTurn(inp);
      }
      done, more, halted := RunTurn(inp);
      if !done { return; }
      if halted {
        EndRun();
      } else {
        PollAfterTurn(inp);
      }
    }

    /** Steering is polled before the first turn, unless that poll is to be skipped. */
    method PollBeforeFirstTurn(ops: seq<QueueOp>)
      requires Inv() && log == [] && pending == [] && skipInitialPoll == origin.skips
      requires ops == origin.script.whileStarting && agent.QueuesNow() == origin.queues
      modifies this`pending, this`pendingFrom, this`pendingMode, this`skipInitialPoll
      modifies agent.steeringQueue, agent.followUpQueue
      ensures Inv() && Polled() && !skipInitialPoll
    {
      hide PhaseOf, ReduceAll, LogMessages, InjectedFrom, LogFollows, LogPolls, LogWentOn, LetsGoOn, BaseAfter,
           DeliveredOf, Gone, OpsDone, RaisedBefore;
      PollForTurn(ops);
    }

    /** The follow-ups asked for when the inner loop has ended; if there are none, the run is over. */
    method PollWhenIdle(inp: TurnInput)
      requires Inv() && Polled() && pending == [] && log != [] && pendingFrom.Steering? && !skipInitialPoll
      requires origin.script.turns[|log| - 1] == inp && !log[|log| - 1].more && !log[|log| - 1].halted
      modifies this`pending, this`pendingFrom, this`pendingMode, agent.steeringQueue, agent.followUpQueue
      ensures Inv() && Polled() && pendingFrom.FollowUps? && !skipInitialPoll
      ensures pending == [] ==> Ended(origin, log, agent.QueuesNow())
    {
      hide PhaseOf, ReduceAll, LogMessages, InjectedFrom, LogFollows, LogPolls, LogWentOn, LetsGoOn, BaseAfter,
           HeldAt, DeliveredOf, Gone, OpsDone, RaisedBefore;
      PollFollowUps(inp.whileIdle);
    }

    /** What the record says of the turns. */
    lemma RecordSays()
      requires LogPolls(origin, log)
      ensures origin.skips ==> FirstTurnInjectsNothing()
      ensures forall source | StartsOneByOne(origin, source) :: InjectsOneByOne(source)
    {
      hide LogPolls, LogWentOn, LetsGoOn, StartsOneByOne;
      if origin.skips && log != [] { FirstSkipped(origin, log); }
      forall source, i | StartsOneByOne(origin, source) && 0 <= i < |log| && log[i].source == source
        ensures |log[i].injected| <= 1
      {
        OneEachTurn(origin, log, source, i);
      }
    }

    /** If no context was replaced, the loop's is the transcript before the run and then the new messages. */
    lemma Unreplaced(begun: nat)
      requires ViewsAgree() && Recorded(begun)
      ensures NoneReplace(origin.script.turns, begun) ==> context == agent.start.messages + newMessages
    {
      hide LogFollows, LogPolls, LogWentOn, LetsGoOn, BaseAfter;
      if NoneReplace(origin.script.turns, begun) {
        NoneReplaced(agent.start.messages, prompts, origin.script.turns, log, begun);
        assert newMessages[0..] == newMessages;
      }
    }

    /** Of a queue that gives one message at a time, no more than one is pending or injected in the turn under way. */
    lemma OneOutstanding()
      requires Suspended()
      ensures forall source | StartsOneByOne(origin, source) :: |Outstanding(source)| <= 1
    {
      hide StartsOneByOne, HeldAt, IsPolled, PhaseOf, ReduceAll, LogFollows, LogPolls, LogWentOn, LetsGoOn;
      forall source | StartsOneByOne(origin, source) ensures |Outstanding(source)| <= 1 {
        if MidTurn() {
          HeldOneByOne(origin, log, source, |log|);
        } else {
          PolledOneByOne(origin, log, HeldNow(), source);
        }
      }
    }

    lemma InvSuspends()
      requires Inv() && Polled() && !agent.phase.Broken?
      ensures Suspended()
    {
    }

    method RunLoop(whileStarting: seq<QueueOp>, turns: seq<TurnInput>) returns (finished: bool)
      requires Inv() && log == [] && pending == [] && agent.phase == TURN_OPEN && skipInitialPoll == origin.skips
      requires origin.script == Script(whileStarting, turns) && agent.QueuesNow() == origin.queues
      requires forall i | 0 <= i < |turns| :: AtMostOneStart(turns[i].stream)
      modifies this`context, this`newMessages, this`pending, this`log, this`injecting, this`base, this`baseAt
      modifies this`pendingFrom, this`pendingMode, this`skipInitialPoll
      modifies agent`state, agent`phase, agent`trace, agent`aborted, agent.steeringQueue, agent.followUpQueue
      ensures finished ==> Complete()
      ensures !finished ==> Suspended()
    {
      hide Inv, Polled, Complete, Suspended, Ended, Next, Reduce, AtMostOneStart;
      PollBeforeFirstTurn(whileStarting);
      var i := 0;
      var lastCompletedTurn := false;
      while true
        invariant |log| == i <= |turns| && Inv() && Polled() && !skipInitialPoll
        invariant lastCompletedTurn == (log != [])
        invariant agent.phase == if log == [] then TURN_OPEN else BetweenTurns
        invariant log != [] ==> pending != [] && pendingFrom.FollowUps? && !log[i - 1].halted && !log[i - 1].more
        decreases |turns| - i
      {
        var hasMoreToolCalls := true;
        ghost var entered := i;
        while hasMoreToolCalls || |pending| > 0
          invariant |log| == i <= |turns| && Inv() && Polled() && !skipInitialPoll
          invariant entered <= i && (i == entered ==> hasMoreToolCalls) && (i > entered ==> pendingFrom.Steering?)
          invariant lastCompletedTurn == (log != [])
          invariant agent.phase == if log == [] then TURN_OPEN else BetweenTurns
          invariant MayFollow() || (!hasMoreToolCalls && pending == [])
          invariant log != [] ==> !log[i - 1].halted && (i > entered ==> hasMoreToolCalls == log[i - 1].more)
          decreases |turns| - i
        {
          if i == |turns| {
            InvSuspends();
            return false;
          }
          var done, halted;
          done, hasMoreToolCalls, halted := Iterate(turns[i], lastCompletedTurn);
          if !done { return false; }
          if halted { return true; }
          i := i + 1;
          lastCompletedTurn := true;
        }
        PollWhenIdle(turns[i - 1]);
        if |pending| > 0 { continue; }
        break;
      }
      EndRun();
      return true;
    }

    /** The start of `runAgentLoop`, and with no prompts of `runAgentLoopContinue`. */
    method EnterLoop(prompts: seq<Message>)
      requires Ready() && agent.trace == [] && agent.state == agent.start && !agent.aborted
      requires newMessages == [] && pending == [] && log == [] && injecting == []
      requires base == context == agent.state.messages && baseAt == 0
      requires steeredBefore == agent.steeringQueue.Delivered() && followedBefore == agent.followUpQueue.Delivered()
      requires this.prompts == prompts
      modifies this`newMessages, this`context, agent`state, agent`phase, agent`trace
      ensures Inv() && agent.phase == TURN_OPEN && pending == []
    {
      hide PhaseOf, ReduceAll, Next, Reduce, LogMessages, InjectedFrom, LogFollows, LogPolls, LogWentOn, LetsGoOn,
           DeliveredOf, Gone, RaisedBefore;
      newMessages := prompts;
      context := context + prompts;
      EmitAgentStart();
      EmitPrompts(prompts);
      EmptyLog(origin.script.turns, agent.sequentialTools);
      NothingPolled(origin);
      assert newMessages[0..] == newMessages && [] + pending == [];
    }

    /** `runAgentLoop`, and with no prompts `runAgentLoopContinue`. */
    method RunAgentLoop(prompts: seq<Message>, script: Script) returns (finished: bool)
      requires Ready() && agent.trace == [] && agent.state == agent.start && !agent.aborted
      requires newMessages == [] && pending == [] && log == [] && injecting == []
      requires base == context == agent.state.messages && baseAt == 0
      requires this.prompts == prompts && origin == Origin(script, agent.QueuesNow(), skipInitialPoll)
      requires steeredBefore == agent.steeringQueue.Delivered() && followedBefore == agent.followUpQueue.Delivered()
      requires script.OneStartEach()
      modifies this, agent`state, agent`phase, agent`trace, agent`aborted, agent.steeringQueue, agent.followUpQueue
      ensures finished ==> Complete()
      ensures !finished ==> Suspended()
    {
      hide Inv, Complete, Suspended, Reduce, Next, AtMostOneStart;
      EnterLoop(prompts);
      finished := RunLoop(script.whileStarting, script.turns);
    }

    method EmitAgentStart()
      requires agent.Running() && agent.trace == []
      modifies agent`state, agent`phase, agent`trace
      ensures agent.Running() && agent.phase == TURN_OPEN && agent.state.messages == old(agent.state.messages)
    {
      agent.ProcessEvents(AgentStart);
      agent.ProcessEvents(TurnStart);
    }

    method EmitPrompts(prompts: seq<Message>)
      requires agent.Running() && agent.phase == TURN_OPEN
      modifies agent`state, agent`phase, agent`trace
      ensures agent.Running() && agent.phase == TURN_OPEN
      ensures agent.state.messages == old(agent.state.messages) + prompts
    {
      for i := 0 to |prompts|
        invariant agent.Running() && agent.phase == TURN_OPEN
        invariant agent.state.messages == old(agent.state.messages) + prompts[..i]
      {
        agent.ProcessEvents(MessageStart(prompts[i]));
        agent.ProcessEvents(MessageEnd(prompts[i]));
      }
    }
  }
}
