/**
 Which calls of a batch run, what the others are answered with, and when a batch ends its run: for one call, and for
 every completed turn of a run.
 */
module AgentCalls {
  import opened AgentTypes
  import opened AgentTools
  import opened AgentRecords
  import opened AgentTraces
  import opened Options

  // ---- One call ----

  /** The call must not run: its tool is unknown or its arguments invalid, its hook failed or blocks it, or the signal
      is raised once the hook is done. */
  predicate Barred(inp: CallInput, aborted: bool) {
    || !inp.lookup.Valid?
    || aborted
    || inp.before.BeforeThrows?
    || (inp.before.BeforeReturns? && inp.before.block)
  }

  /** What a call that must not run is answered with. A failed hook goes before the signal, the signal before a block. */
  predicate TellsWhy(text: ResultText, call: ToolCall, inp: CallInput, aborted: bool) {
    && (inp.lookup.NotFound? ==> text == ToolNotFound(call.name))
    && (inp.lookup.Invalid? ==> text == Verbatim(inp.lookup.error))
    && (inp.lookup.Valid? && inp.before.BeforeThrows? ==> text == Verbatim(inp.before.error))
    && (inp.lookup.Valid? && !inp.before.BeforeThrows? && aborted ==> text == OperationAborted)
    && (inp.lookup.Valid? && inp.before.BeforeReturns? && !aborted && inp.before.block ==>
          match inp.before.reason
          case Some(reason) => text == (if reason == "" then ExecutionBlocked else Verbatim(reason))
          case None => text == ExecutionBlocked)
  }

  predicate Explained(output: ToolOutput, call: ToolCall, inp: CallInput, aborted: bool) {
    && output.content.Some? && |output.content.value| == 1
    && TellsWhy(output.content.value[0], call, inp, aborted)
  }

  /** The same call with another tool behind it, and another hook after it. */
  function Behind(inp: CallInput, execution: Execution, after: AfterHook, updates: seq<string>): CallInput {
    inp.(execution := execution, after := after, updates := updates)
  }

  /** A call that must not run does not: whatever its tool would do, the outcome and the events are the same, an error
      that tells why. */
  lemma {:induction false} BarredNeverRuns(
    call: ToolCall, inp: CallInput, aborted: bool, execution: Execution, after: AfterHook, updates: seq<string>)
    requires Barred(inp, aborted)
    ensures Outcome(call, Behind(inp, execution, after, updates), aborted) == Outcome(call, inp, aborted)
    ensures CallEvents(call, Behind(inp, execution, after, updates), aborted) == CallEvents(call, inp, aborted)
    ensures var f := Outcome(call, inp, aborted);
      && f.isError && f.call == call
      && CallEvents(call, inp, aborted) == [ToolStart(call), ToolEnd(call, f.output, true)]
      && Explained(f.output, call, inp, aborted)
  {
  }

  /** Every other call runs: its updates are emitted between its start and its end, and its tool decides the outcome. */
  lemma {:induction false} OthersRun(call: ToolCall, inp: CallInput, aborted: bool)
    requires !Barred(inp, aborted)
    ensures var f := Outcome(call, inp, aborted);
      && f == Finalize(call, inp)
      && CallEvents(call, inp, aborted) == [ToolStart(call)] + Updates(call, inp.updates) + [ToolEnd(call, f.output, f.isError)]
  {
  }

  /** Without an after hook the outcome is what the tool returned, or an error with what it threw. A hook that throws
      leaves only its own error. A hook that answers replaces exactly the fields it gives. */
  lemma {:induction false} HookReplaces(call: ToolCall, inp: CallInput)
    ensures var plain, f := Finalize(call, inp.(after := NoAfterHook)), Finalize(call, inp);
      && f.call == plain.call == call
      && (inp.execution.Returns? ==> plain.output == inp.execution.output && !plain.isError)
      && (inp.execution.Throws? ==>
           plain.output.content == Some([Verbatim(inp.execution.error)]) && plain.output.terminate.None? && plain.isError)
      && match inp.after
         case NoAfterHook => f == plain
         case AfterThrows(error) =>
           f.output.content == Some([Verbatim(error)]) && f.output.terminate.None? && f.isError
         case AfterReturns(content, details, isError, terminate) =>
           && f.output.content == (if content.Some? then content else plain.output.content)
           && (match details case Some(d) => f.output.details == d case None => f.output.details == plain.output.details)
           && (match isError case Some(e) => f.isError == e case None => f.isError == plain.isError)
           && f.output.terminate == (if terminate.Some? then terminate else plain.output.terminate)
  {
  }

  // ---- A batch ----

  /** The signal when a call's preparation ends. In a batch that has got as far as call `k > 0`, no call before it has
      left the signal raised. */
  predicate RaisedFor(inputs: nat -> CallInput, k: nat, aborted: bool) {
    (k == 0 && aborted) || inputs(k).abortInPrepare
  }

  lemma {:induction false} SequentialOutcome(calls: seq<ToolCall>, inputs: nat -> CallInput, i: nat, aborted: bool, k: nat)
    requires i <= |calls| && k < |AgentTools.Sequential(calls, inputs, i, aborted)|
    ensures i + k < |calls|
    ensures AgentTools.Sequential(calls, inputs, i, aborted)[k]
         == Outcome(calls[i + k], inputs(i + k), (k == 0 && aborted) || inputs(i + k).abortInPrepare)
    decreases |calls| - i
  {
    hide Outcome;
    if k > 0 {
      SequentialOutcome(calls, inputs, i + 1, aborted || inputs(i).abortInPrepare || inputs(i).abortInCall, k - 1);
    }
  }

  lemma {:induction false} EntryAt(calls: seq<ToolCall>, inputs: nat -> CallInput, i: nat, aborted: bool, k: nat)
    requires i <= |calls| && k < |Entries(calls, inputs, i, aborted)|
    ensures i + k < |calls|
    ensures Entries(calls, inputs, i, aborted)[k]
         == EntryFor(calls[i + k], inputs(i + k), (k == 0 && aborted) || inputs(i + k).abortInPrepare)
    decreases |calls| - i
  {
    hide EntryFor;
    if k > 0 {
      EntryAt(calls, inputs, i + 1, aborted || inputs(i).abortInPrepare || inputs(i).abortInCall, k - 1);
    }
  }

  /** One of the calls from `i` to `j` raises the signal while it is prepared. */
  ghost predicate RaisedWithin(inputs: nat -> CallInput, i: nat, j: nat) {
    exists k | i <= k < j :: inputs(k).abortInPrepare || inputs(k).abortInCall
  }

  lemma {:induction false} SignalAfter(calls: seq<ToolCall>, inputs: nat -> CallInput, i: nat, aborted: bool)
    requires i <= |calls|
    ensures AbortedAfterEntries(calls, inputs, i, aborted)
       <==> aborted || RaisedWithin(inputs, i, i + |Entries(calls, inputs, i, aborted)|)
    decreases |calls| - i
  {
    hide EntryFor;
    if i < |calls| {
      var later := aborted || inputs(i).abortInPrepare || inputs(i).abortInCall;
      SignalAfter(calls, inputs, i + 1, later);
    }
  }

  /** One of the tools from `i` to `j` raises the signal while it is started. */
  ghost predicate RaisedAtStart(entries: seq<Entry>, inputs: nat -> CallInput, i: nat, n: nat)
    requires n <= |entries|
  {
    exists k | 0 <= k < n :: entries[k].Waiting? && inputs(i + k).abortAtStart
  }

  lemma {:induction false} OutcomeAt(entries: seq<Entry>, inputs: nat -> CallInput, i: nat, aborted: bool, k: nat)
    requires k < |entries|
    ensures Outcomes(entries, inputs, i, aborted)[k]
         == EntryOutcome(entries[k], inputs(i + k), aborted || RaisedAtStart(entries, inputs, i, k))
  {
    hide EntryOutcome;
    if k > 0 {
      var first := entries[0].Waiting? && inputs(i).abortAtStart;
      OutcomeAt(entries[1..], inputs, i + 1, aborted || first, k - 1);
      assert RaisedAtStart(entries, inputs, i, k) <==> first || RaisedAtStart(entries[1..], inputs, i + 1, k - 1) by {
        forall m | 0 < m < k ensures entries[m] == entries[1..][m - 1] { }
        if first { assert entries[0].Waiting? && inputs(i + 0).abortAtStart; }
      }
    }
  }

  // ---- The calls of a completed turn ----

  /** A tool that may run is still not started if the signal is raised by then: before the batch, while one of its
      calls is prepared, or while an earlier tool is started. */
  ghost predicate StartsAborted(inputs: nat -> CallInput, aborted: bool, n: nat, k: nat) {
    || aborted
    || RaisedWithin(inputs, 0, n)
    || exists j | 0 <= j < k :: !Barred(inputs(j), RaisedFor(inputs, j, aborted)) && inputs(j).abortAtStart
  }

  /** What call `k` of a batch comes to, of which `n` calls are answered. */
  ghost predicate Answers(
    f: Finalized, call: ToolCall, inputs: nat -> CallInput, sequential: bool, aborted: bool, n: nat, k: nat)
  {
    var inp, raised := inputs(k), RaisedFor(inputs, k, aborted);
    f.call == call &&
    if Barred(inp, raised) then
      && f.isError && Explained(f.output, call, inp, raised)
      && (f.output.terminate == Some(true) <==>
            inp.lookup.Valid? && !raised && inp.before.BeforeReturns? && inp.before.terminate)
    else if !sequential && StartsAborted(inputs, aborted, n, k) then
      f.isError && f.output.content == Some([OperationAborted]) && f.output.terminate.None?
    else f == Finalize(call, inp)
  }

  lemma {:induction false} OneAnswers(call: ToolCall, inputs: nat -> CallInput, aborted: bool, n: nat, k: nat)
    ensures Answers(Outcome(call, inputs(k), RaisedFor(inputs, k, aborted)), call, inputs, true, aborted, n, k)
  {
  }

  lemma {:induction false} EntryAnswers(
    e: Entry, call: ToolCall, inputs: nat -> CallInput, aborted: bool, n: nat, k: nat)
    requires e == EntryFor(call, inputs(k), RaisedFor(inputs, k, aborted))
    ensures e.Waiting? <==> !Barred(inputs(k), RaisedFor(inputs, k, aborted))
    ensures Answers(EntryOutcome(e, inputs(k), StartsAborted(inputs, aborted, n, k)), call, inputs, false, aborted, n, k)
  {
    hide StartsAborted;
  }

  lemma {:induction false} SequentialAllAnswer(calls: seq<ToolCall>, inputs: nat -> CallInput, aborted: bool)
    ensures var fs := AgentTools.Sequential(calls, inputs, 0, aborted);
      |fs| <= |calls| && forall k | 0 <= k < |fs| :: Answers(fs[k], calls[k], inputs, true, aborted, |fs|, k)
  {
    hide Answers, AgentTools.Sequential;
    var fs := AgentTools.Sequential(calls, inputs, 0, aborted);
    SequentialAnswersPrefix(calls, inputs, aborted);
    forall k | 0 <= k < |fs| ensures Answers(fs[k], calls[k], inputs, true, aborted, |fs|, k) {
      SequentialOutcome(calls, inputs, 0, aborted, k);
      OneAnswers(calls[k], inputs, aborted, |fs|, k);
    }
  }

  lemma {:induction false} ParallelAllAnswer(calls: seq<ToolCall>, inputs: nat -> CallInput, aborted: bool)
    ensures var fs := Parallel(calls, inputs, aborted);
      |fs| <= |calls| && forall k | 0 <= k < |fs| :: Answers(fs[k], calls[k], inputs, false, aborted, |fs|, k)
  {
    hide Answers, EntryFor, EntryOutcome, Entries, Outcomes, AbortedAfterEntries;
    var es, fs := Entries(calls, inputs, 0, aborted), Parallel(calls, inputs, aborted);
    ParallelAnswersPrefix(calls, inputs, aborted);
    SignalAfter(calls, inputs, 0, aborted);
    forall k | 0 <= k < |fs| ensures Answers(fs[k], calls[k], inputs, false, aborted, |fs|, k) {
      EntryAt(calls, inputs, 0, aborted, k);
      EntryAnswers(es[k], calls[k], inputs, aborted, |fs|, k);
      OutcomeAt(es, inputs, 0, AbortedAfterEntries(calls, inputs, 0, aborted), k);
      assert RaisedAtStart(es, inputs, 0, k)
        <==> exists j | 0 <= j < k :: !Barred(inputs(j), RaisedFor(inputs, j, aborted)) && inputs(j).abortAtStart by {
        forall j | 0 <= j < k ensures es[j].Waiting? <==> !Barred(inputs(j), RaisedFor(inputs, j, aborted)) {
          EntryAt(calls, inputs, 0, aborted, j);
          EntryAnswers(es[j], calls[j], inputs, aborted, |fs|, j);
        }
        assert forall j: nat :: inputs(0 + j) == inputs(j);
      }
    }
  }

  /** The outcomes a completed turn's results come from. */
  ghost function TurnOutcomes(t: Turn, inp: TurnInput, sequentialConfig: bool): seq<Finalized> {
    var calls := t.assistant.ToolCalls();
    if SequentialBatch(sequentialConfig, calls, inp.calls) then AgentTools.Sequential(calls, inp.calls, 0, t.aborted)
    else Parallel(calls, inp.calls, t.aborted)
  }

  lemma {:induction false} TurnAnswers(t: Turn, inp: TurnInput, sequentialConfig: bool)
    requires TurnFollows(t, inp, sequentialConfig) && !t.assistant.Broken() && !t.assistant.stop.Length?
    ensures var calls, fs := t.assistant.ToolCalls(), TurnOutcomes(t, inp, sequentialConfig);
      && t.results == ResultMessages(fs) && |fs| <= |calls|
      && (calls != [] ==> fs != [] && t.more == !ShouldTerminate(fs))
      && forall k | 0 <= k < |fs| ::
           Answers(fs[k], calls[k], inp.calls, OneAfterOther(calls, inp, sequentialConfig), t.aborted, |fs|, k)
  {
    hide Answers, AgentTools.Sequential, Parallel, CallsOf, ShouldTerminate;
    var calls := t.assistant.ToolCalls();
    SequentialAllAnswer(calls, inp.calls, t.aborted);
    ParallelAllAnswer(calls, inp.calls, t.aborted);
    SequentialAnswersPrefix(calls, inp.calls, t.aborted);
    ParallelAnswersPrefix(calls, inp.calls, t.aborted);
    NoResults();
    if calls == [] {
      assert AgentTools.Sequential(calls, inp.calls, 0, t.aborted) == [];
      assert Parallel(calls, inp.calls, t.aborted) == [];
    }
  }

  /** Each result of a completed turn is what its call comes to; those of a cut-off message's calls are errors. */
  lemma {:induction false} TurnResult(log: seq<Turn>, turns: seq<TurnInput>, sequentialConfig: bool, i: nat, k: nat)
    requires LogFollows(log, turns, sequentialConfig) && i < |log| && k < |log[i].results|
    ensures var t, calls, inputs := log[i], log[i].assistant.ToolCalls(), turns[i].calls;
      && k < |calls| && !t.assistant.Broken()
      && if t.assistant.stop.Length? then
           t.results[k] == ToolResultMessage(calls[k].id, calls[k].name, [NotExecutedTruncated(calls[k].name)], "{}", true)
         else exists f ::
           && t.results[k] == ResultMessage(f)
           && Answers(f, calls[k], inputs, OneAfterOther(calls, turns[i], sequentialConfig), t.aborted, |t.results|, k)
  {
    hide Answers, TurnOutcomes, CallsOf;
    var t := log[i];
    assert TurnFollows(t, turns[i], sequentialConfig);
    if !t.assistant.stop.Length? {
      TurnAnswers(t, turns[i], sequentialConfig);
      assert t.results[k] == ResultMessage(TurnOutcomes(t, turns[i], sequentialConfig)[k]);
    }
  }

  /** Whichever way its batch runs, a call that must not run is answered with an error that tells why. */
  lemma {:induction false} BarredInTurn(log: seq<Turn>, turns: seq<TurnInput>, sequentialConfig: bool, i: nat, k: nat)
    requires LogFollows(log, turns, sequentialConfig) && i < |log| && k < |log[i].results|
    requires !log[i].assistant.stop.Length?
    requires Barred(turns[i].calls(k), RaisedFor(turns[i].calls, k, log[i].aborted))
    ensures var t, calls, inputs := log[i], log[i].assistant.ToolCalls(), turns[i].calls;
      && k < |calls| && t.results[k].callId == calls[k].id && t.results[k].isError && |t.results[k].content| == 1
      && TellsWhy(t.results[k].content[0], calls[k], inputs(k), RaisedFor(inputs, k, t.aborted))
  {
    hide CallsOf, LogFollows, TellsWhy;
    TurnResult(log, turns, sequentialConfig, i, k);
  }

  /** Call `k` asks for the run to end: its hook blocks it and asks for it, or it runs and its result, or else its
      after hook, does. */
  ghost predicate AsksToEnd(inputs: nat -> CallInput, sequential: bool, aborted: bool, n: nat, k: nat) {
    var inp, raised := inputs(k), RaisedFor(inputs, k, aborted);
    if Barred(inp, raised) then
      inp.lookup.Valid? && !raised && inp.before.BeforeReturns? && inp.before.terminate
    else if !sequential && StartsAborted(inputs, aborted, n, k) then false
    else
      !inp.after.AfterThrows? &&
      if inp.after.AfterReturns? && inp.after.terminate.Some? then inp.after.terminate.value
      else inp.execution.Returns? && inp.execution.output.terminate == Some(true)
  }

  lemma {:induction false} AskedToEnd(
    f: Finalized, call: ToolCall, inputs: nat -> CallInput, sequential: bool, aborted: bool, n: nat, k: nat)
    requires Answers(f, call, inputs, sequential, aborted, n, k)
    ensures f.output.terminate == Some(true) <==> AsksToEnd(inputs, sequential, aborted, n, k)
  {
    hide StartsAborted;
  }

  /** A completed turn's calls want another turn, unless every one that is answered asks for the run to end. */
  lemma {:induction false} OneCallGoesOn(log: seq<Turn>, turns: seq<TurnInput>, sequentialConfig: bool, i: nat)
    requires LogFollows(log, turns, sequentialConfig) && i < |log| && !log[i].assistant.Broken()
    ensures var t, calls, n := log[i], log[i].assistant.ToolCalls(), |log[i].results|;
      var sequential := OneAfterOther(calls, turns[i], sequentialConfig);
      t.more <==>
        calls != [] && (t.assistant.stop.Length? || exists k | 0 <= k < n :: !AsksToEnd(turns[i].calls, sequential, t.aborted, n, k))
  {
    hide Answers, TurnOutcomes, AsksToEnd, CallsOf;
    var t, calls := log[i], log[i].assistant.ToolCalls();
    assert TurnFollows(t, turns[i], sequentialConfig);
    if !t.assistant.stop.Length? {
      TurnAnswers(t, turns[i], sequentialConfig);
      var fs, sequential := TurnOutcomes(t, turns[i], sequentialConfig), OneAfterOther(calls, turns[i], sequentialConfig);
      forall k | 0 <= k < |fs|
        ensures fs[k].output.terminate == Some(true) <==> AsksToEnd(turns[i].calls, sequential, t.aborted, |fs|, k)
      {
        AskedToEnd(fs[k], calls[k], turns[i].calls, sequential, t.aborted, |fs|, k);
      }
    }
  }
}
