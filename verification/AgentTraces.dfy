/** The events of a stream and of a tool batch, and what they show of the inputs. */
module AgentTraces {
  import opened AgentTypes
  import opened AgentQueue
  import opened AgentTools
  import opened AgentRecords
  import opened Options

  // ---- A streamed response ----

  /** What a stream emits before its response is complete; `started` says that it has started. */
  function StreamTrace(events: seq<StreamEvent>, started: bool): seq<Event> {
    if events == [] then []
    else
      match events[0]
      case Start(p) => [MessageStart(FromAssistant(p))] + StreamTrace(events[1..], true)
      case Update(p) => (if started then [MessageUpdate(FromAssistant(p))] else []) + StreamTrace(events[1..], started)
      case End => []
  }

  /** What a response emits in all. */
  function ResponseTrace(s: StreamInput): seq<Event> {
    StreamTrace(s.events, false)
    + (if Starts(s.events) == 0 then [MessageStart(FromAssistant(s.final))] else []) + [MessageEnd(FromAssistant(s.final))]
  }

  predicate AllUpdates(events: seq<StreamEvent>) { forall i | 0 <= i < |events| :: events[i].Update? }

  function Shown(updates: seq<StreamEvent>): seq<Event>
    requires AllUpdates(updates)
  {
    seq(|updates|, i requires 0 <= i < |updates| => MessageUpdate(FromAssistant(updates[i].partial)))
  }

  lemma {:induction false} UpdatesAreShown(us: seq<StreamEvent>, rest: seq<StreamEvent>, started: bool)
    requires AllUpdates(us)
    ensures StreamTrace(us + rest, started) == (if started then Shown(us) else []) + StreamTrace(rest, started)
    ensures Starts(us + rest) == Starts(rest)
    decreases |us|
  {
    if us == [] {
      assert us + rest == rest;
    } else {
      assert (us + rest)[1..] == us[1..] + rest;
      UpdatesAreShown(us[1..], rest, started);
      if started { assert Shown(us) == [MessageUpdate(FromAssistant(us[0].partial))] + Shown(us[1..]); }
    }
  }

  /** A stream that starts shows its first message, every update from then to its end, and the final message's end. */
  lemma {:induction false} StartedIsShown(us: seq<StreamEvent>, p: AssistantMessage, vs: seq<StreamEvent>,
                                          rest: seq<StreamEvent>, final: AssistantMessage)
    requires AllUpdates(us) && AllUpdates(vs)
    ensures ResponseTrace(StreamInput(us + ([Start(p)] + (vs + ([End] + rest))), final))
         == [MessageStart(FromAssistant(p))] + Shown(vs) + [MessageEnd(FromAssistant(final))]
  {
    var after := [End] + rest;
    var tail := [Start(p)] + (vs + after);
    assert tail[1..] == vs + after;
    UpdatesAreShown(us, tail, false);
    UpdatesAreShown(vs, after, true);
    assert StreamTrace(after, true) == [];
  }

  /** One that never starts shows its final message only. */
  lemma {:induction false} UnstartedIsShown(us: seq<StreamEvent>, rest: seq<StreamEvent>, final: AssistantMessage)
    requires AllUpdates(us)
    ensures ResponseTrace(StreamInput(us + ([End] + rest), final))
         == [MessageStart(FromAssistant(final)), MessageEnd(FromAssistant(final))]
  {
    UpdatesAreShown(us, [End] + rest, false);
  }

  // ---- A sequential batch ----

  function OpenCount(events: seq<Event>): int {
    if events == [] then 0
    else
      var n := |events| - 1;
      OpenCount(events[..n]) + if events[n].ToolStart? then 1 else if events[n].ToolEnd? then -1 else 0
  }

  /** Every prefix of the events has at most one execution open, and at the end none is. */
  ghost predicate NeverTwoOpen(events: seq<Event>) {
    OpenCount(events) == 0 && forall i | 0 <= i <= |events| :: 0 <= OpenCount(events[..i]) <= 1
  }

  lemma {:induction false} OpenJoins(a: seq<Event>, b: seq<Event>)
    ensures OpenCount(a + b) == OpenCount(a) + OpenCount(b)
  {
    if b == [] {
      assert a + b == a;
    } else {
      var n := |b| - 1;
      OpenJoins(a, b[..n]);
      assert (a + b)[..|a| + n] == a + b[..n];
    }
  }

  lemma {:induction false} NeverTwoJoins(a: seq<Event>, b: seq<Event>)
    requires NeverTwoOpen(a) && NeverTwoOpen(b)
    ensures NeverTwoOpen(a + b)
  {
    OpenJoins(a, b);
    forall i | 0 <= i <= |a + b| ensures 0 <= OpenCount((a + b)[..i]) <= 1 {
      if i <= |a| {
        assert (a + b)[..i] == a[..i];
      } else {
        assert (a + b)[..i] == a + b[..i - |a|];
        OpenJoins(a, b[..i - |a|]);
      }
    }
  }

  lemma {:induction false} NoneOpens(events: seq<Event>)
    requires forall i | 0 <= i < |events| :: !events[i].ToolStart? && !events[i].ToolEnd?
    ensures NeverTwoOpen(events)
  {
    if events != [] {
      var n := |events| - 1;
      NoneOpens(events[..n]);
      forall i | 0 <= i <= |events| ensures 0 <= OpenCount(events[..i]) <= 1 {
        if i <= n { assert events[..i] == events[..n][..i]; } else { assert events[..i] == events; }
      }
    }
  }

  lemma {:induction false} OneOpens(call: ToolCall, between: seq<Event>, end: Event)
    requires forall i | 0 <= i < |between| :: !between[i].ToolStart? && !between[i].ToolEnd?
    requires end.ToolEnd?
    ensures NeverTwoOpen([ToolStart(call)] + between + [end])
  {
    var first, inner := [ToolStart(call)], [ToolStart(call)] + between;
    assert OpenCount(first) == 1 && OpenCount([end]) == -1 by { assert first[..0] == [] && [end][..0] == []; }
    forall i | 0 <= i <= |between| ensures OpenCount(first + between[..i]) == 1 {
      NoneOpens(between[..i]);
      OpenJoins(first, between[..i]);
    }
    assert between[..|between|] == between;
    OpenJoins(inner, [end]);
    var all := inner + [end];
    forall i | 0 <= i <= |all| ensures 0 <= OpenCount(all[..i]) <= 1 {
      if i == 0 {
      } else if i < |all| {
        assert all[..i] == first + between[..i - 1];
      } else {
        assert all[..i] == all;
      }
    }
  }

  /** A sequential batch works on one call at a time: an execution has ended before the next one starts. */
  lemma {:induction false} SequentialNeverTwo(calls: seq<ToolCall>, inputs: nat -> CallInput, i: nat, aborted: bool)
    requires i <= |calls|
    ensures NeverTwoOpen(SequentialEvents(calls, inputs, i, aborted))
    decreases |calls| - i
  {
    hide NeverTwoOpen, Outcome, CallEvents;
    if i == |calls| {
      NoneOpens([]);
    } else {
      var inp := inputs(i);
      var prepared := aborted || inp.abortInPrepare;
      var later := prepared || inp.abortInCall;
      var one := CallEvents(calls[i], inp, prepared) + ResultEvents(ResultMessage(Outcome(calls[i], inp, prepared)));
      OneNeverTwo(calls[i], inp, prepared);
      if later {
        assert SequentialEvents(calls, inputs, i, aborted) == one;
      } else {
        SequentialNeverTwo(calls, inputs, i + 1, later);
        NeverTwoJoins(one, SequentialEvents(calls, inputs, i + 1, later));
      }
    }
  }

  lemma {:induction false} OneNeverTwo(call: ToolCall, inp: CallInput, aborted: bool)
    ensures NeverTwoOpen(CallEvents(call, inp, aborted) + ResultEvents(ResultMessage(Outcome(call, inp, aborted))))
  {
    hide NeverTwoOpen, Outcome, Prepare;
    var f := Outcome(call, inp, aborted);
    var between := if Prepare(call, inp, aborted).Prepared? then Updates(call, inp.updates) else [];
    CallIsItsOutcome(call, inp, aborted);
    OneOpens(call, between, ToolEnd(f.call, f.output, f.isError));
    NoneOpens(ResultEvents(ResultMessage(f)));
    NeverTwoJoins(CallEvents(call, inp, aborted), ResultEvents(ResultMessage(f)));
  }

  lemma CallIsItsOutcome(call: ToolCall, inp: CallInput, aborted: bool)
    ensures Outcome(call, inp, aborted).call == call
  {
  }

  /** The batch runs its calls one after the other: it is so configured, or one of its tools asks for it. */
  ghost predicate OneAfterOther(calls: seq<ToolCall>, inp: TurnInput, sequentialConfig: bool) {
    sequentialConfig || exists k: nat | k < |calls| :: inp.calls(k).sequentialTool
  }

  // ---- A parallel batch while it runs ----

  /** A call of a parallel batch: not started, executing, executed but not finalized, or done. */
  datatype Slot = Waiting(call: ToolCall) | Executing(call: ToolCall) | Executed(call: ToolCall) | Done(outcome: Finalized)

  /** What an event of its tool does to a slot, and what it emits. */
  function SlotAfter(slot: Slot, step: Completion, inp: CallInput): Slot {
    if step.Settle? && slot.Executing? then Slot.Executed(slot.call)
    else if step.Finish? && slot.Executed? then Done(Finalize(slot.call, inp))
    else slot
  }

  function SlotEmits(slot: Slot, step: Completion, inp: CallInput): seq<Event> {
    if step.Progress? && slot.Executing? then [ToolUpdate(slot.call, step.partial)]
    else if step.Finish? && slot.Executed? then
      var f := Finalize(slot.call, inp);
      [ToolEnd(f.call, f.output, f.isError)]
    else []
  }

  function SlotsAfter(slots: seq<Slot>, schedule: seq<Completion>, inputs: nat -> CallInput): (r: seq<Slot>)
    ensures |r| == |slots|
  {
    if schedule == [] then slots
    else
      var n := |schedule| - 1;
      var now, step := SlotsAfter(slots, schedule[..n], inputs), schedule[n];
      if step.k < |now| then now[step.k := SlotAfter(now[step.k], step, inputs(step.k))] else now
  }

  function SlotsEmit(slots: seq<Slot>, schedule: seq<Completion>, inputs: nat -> CallInput): seq<Event> {
    if schedule == [] then []
    else
      var n := |schedule| - 1;
      var now, step := SlotsAfter(slots, schedule[..n], inputs), schedule[n];
      SlotsEmit(slots, schedule[..n], inputs)
      + if step.k < |now| then SlotEmits(now[step.k], step, inputs(step.k)) else []
  }

  lemma OneMoreCompletion(slots: seq<Slot>, schedule: seq<Completion>, step: Completion, inputs: nat -> CallInput)
    ensures var now := SlotsAfter(slots, schedule, inputs);
      && SlotsAfter(slots, schedule + [step], inputs)
         == (if step.k < |now| then now[step.k := SlotAfter(now[step.k], step, inputs(step.k))] else now)
      && SlotsEmit(slots, schedule + [step], inputs)
         == SlotsEmit(slots, schedule, inputs)
            + if step.k < |now| then SlotEmits(now[step.k], step, inputs(step.k)) else []
  {
    assert (schedule + [step])[..|schedule|] == schedule;
  }

  lemma NoCompletions(slots: seq<Slot>, inputs: nat -> CallInput)
    ensures SlotsAfter(slots, [], inputs) == slots && SlotsEmit(slots, [], inputs) == []
  {
  }

  predicate Settles(schedule: seq<Completion>, k: nat) { Settle(k) in schedule }

  /** An executing tool executes until it settles. */
  lemma {:induction false} ExecutesUntilSettled(slots: seq<Slot>, schedule: seq<Completion>, inputs: nat -> CallInput, k: nat)
    requires k < |slots| && slots[k].Executing?
    ensures var slot := SlotsAfter(slots, schedule, inputs)[k];
      && CallOf(slot) == slots[k].call
      && (slot == slots[k] <==> !Settles(schedule, k)) && (slot.Executing? <==> !Settles(schedule, k))
      && (slot.Executed? || slot.Done? <==> Settles(schedule, k))
      && (slot.Done? ==> slot.outcome == Finalize(slots[k].call, inputs(k)))
  {
    if schedule != [] {
      var n := |schedule| - 1;
      ExecutesUntilSettled(slots, schedule[..n], inputs, k);
      assert schedule == schedule[..n] + [schedule[n]];
    }
  }

  function CallOf(slot: Slot): ToolCall {
    if slot.Done? then slot.outcome.call else slot.call
  }

  /** What an executing tool reports is emitted exactly until it settles. */
  lemma {:induction false} ReportsUntilSettled(
    slots: seq<Slot>, schedule: seq<Completion>, partial: string, inputs: nat -> CallInput, k: nat)
    requires k < |slots| && slots[k].Executing?
    ensures SlotsEmit(slots, schedule + [Progress(k, partial)], inputs)
         == SlotsEmit(slots, schedule, inputs) + if Settles(schedule, k) then [] else [ToolUpdate(slots[k].call, partial)]
  {
    OneMoreCompletion(slots, schedule, Progress(k, partial), inputs);
    ExecutesUntilSettled(slots, schedule, inputs, k);
  }

  predicate Finishes(schedule: seq<Completion>, k: nat) {
    exists i, j | 0 <= i < j < |schedule| :: schedule[i] == Settle(k) && schedule[j] == Finish(k)
  }

  /** It is done once its after hook has settled too. */
  lemma {:induction false} DoneOnceFinished(slots: seq<Slot>, schedule: seq<Completion>, inputs: nat -> CallInput, k: nat)
    requires k < |slots| && slots[k].Executing?
    ensures SlotsAfter(slots, schedule, inputs)[k].Done? <==> Finishes(schedule, k)
  {
    if schedule != [] {
      var n := |schedule| - 1;
      DoneOnceFinished(slots, schedule[..n], inputs, k);
      ExecutesUntilSettled(slots, schedule[..n], inputs, k);
      FinishesMore(schedule[..n], schedule[n], k);
      assert schedule == schedule[..n] + [schedule[n]];
    }
  }

  lemma {:induction false} FinishesMore(schedule: seq<Completion>, step: Completion, k: nat)
    ensures Finishes(schedule + [step], k) <==> Finishes(schedule, k) || (Settles(schedule, k) && step == Finish(k))
  {
    var more := schedule + [step];
    if Finishes(schedule, k) {
      var i, j :| 0 <= i < j < |schedule| && schedule[i] == Settle(k) && schedule[j] == Finish(k);
      assert more[i] == Settle(k) && more[j] == Finish(k);
    } else if Settles(schedule, k) && step == Finish(k) {
      var i :| 0 <= i < |schedule| && schedule[i] == Settle(k);
      assert more[i] == Settle(k) && more[|schedule|] == Finish(k);
    }
  }
}
