/**
 Tool calls: preparing, executing and finalizing one call, and what a whole batch
 yields, sequentially and in parallel. Hooks and tools are inputs: they may answer
 anything, per call.
 */
module AgentTools {
  import opened AgentTypes
  import opened Options

  /** Finding the tool and validating the arguments. */
  datatype Lookup = NotFound | Invalid(error: string) | Valid

  datatype BeforeHook =
    | NoBeforeHook
    | BeforeThrows(error: string)
    | BeforeReturns(block: bool, reason: Option<string>, terminate: bool)

  datatype Execution = Returns(output: ToolOutput) | Throws(error: string)

  /** The fields an after hook provides replace those of the executed result. */
  datatype AfterHook =
    | NoAfterHook
    | AfterThrows(error: string)
    | AfterReturns(content: Option<seq<ResultText>>, details: Option<string>, isError: Option<bool>, terminate: Option<bool>)

  /** Everything the environment decides about one call. The abort flags say when the run's
      signal is raised: by the time preparation ends, by the time the call's loop iteration
      ends, or (parallel) while starting the tool. */
  datatype CallInput = CallInput(
    lookup: Lookup, before: BeforeHook, execution: Execution, after: AfterHook,
    updates: seq<string>, sequentialTool: bool,
    abortInPrepare: bool, abortInCall: bool, abortAtStart: bool)

  predicate NoAbort(inp: CallInput) { !inp.abortInPrepare && !inp.abortInCall && !inp.abortAtStart }

  datatype Finalized = Finalized(call: ToolCall, output: ToolOutput, isError: bool)
  datatype Preparation = Immediate(output: ToolOutput) | Prepared

  function ErrorOutput(text: ResultText): ToolOutput {
    ToolOutput(Some([text]), "{}", None)
  }

  function Truncated(call: ToolCall): Finalized {
    Finalized(call, ErrorOutput(NotExecutedTruncated(call.name)), true)
  }

  /** `aborted` is the signal once the before hook (if any) has run. Every immediate outcome is an error. */
  function Prepare(call: ToolCall, inp: CallInput, aborted: bool): Preparation {
    match inp.lookup
    case NotFound => Immediate(ErrorOutput(ToolNotFound(call.name)))
    case Invalid(error) => Immediate(ErrorOutput(Verbatim(error)))
    case Valid =>
      match inp.before
      case BeforeThrows(error) => Immediate(ErrorOutput(Verbatim(error)))
      case NoBeforeHook => if aborted then Immediate(ErrorOutput(OperationAborted)) else Prepared
      case BeforeReturns(block, reason, terminate) =>
        if aborted then Immediate(ErrorOutput(OperationAborted))
        else if block then
          var text := if reason.Some? && reason.value != "" then Verbatim(reason.value) else ExecutionBlocked;
          Immediate(if terminate then ErrorOutput(text).(terminate := Some(true)) else ErrorOutput(text))
        else Prepared
  }

  function OrElse<T>(x: Option<T>, y: T): T { if x.Some? then x.value else y }

  /** The executed result after the after hook. */
  function Finalize(call: ToolCall, inp: CallInput): (f: Finalized)
    ensures f.call == call
  {
    var output := if inp.execution.Returns? then inp.execution.output else ErrorOutput(Verbatim(inp.execution.error));
    var isError := inp.execution.Throws?;
    match inp.after
    case NoAfterHook => Finalized(call, output, isError)
    case AfterThrows(error) => Finalized(call, ErrorOutput(Verbatim(error)), true)
    case AfterReturns(content, details, error, terminate) =>
      Finalized(
        call,
        ToolOutput(
          if content.Some? then content else output.content,
          OrElse(details, output.details),
          if terminate.Some? then terminate else output.terminate),
        OrElse(error, isError))
  }

  function ResultMessage(f: Finalized): ToolResultMessage {
    ResultOf(f.call, f.output, f.isError)
  }

  function ResultMessages(fs: seq<Finalized>): (r: seq<ToolResultMessage>)
    ensures |r| == |fs|
  {
    seq(|fs|, i requires 0 <= i < |fs| => ResultMessage(fs[i]))
  }

  lemma {:induction false} NoResults()
    ensures ResultMessages([]) == [] && ToolMessages([]) == []
  {
  }

  lemma {:induction false} OneMoreResult(fs: seq<Finalized>, f: Finalized)
    ensures ResultMessages(fs + [f]) == ResultMessages(fs) + [ResultMessage(f)]
    ensures ToolMessages(ResultMessages(fs + [f])) == ToolMessages(ResultMessages(fs)) + [FromTool(ResultMessage(f))]
  {
  }

  predicate ShouldTerminate(fs: seq<Finalized>) {
    |fs| > 0 && forall i | 0 <= i < |fs| :: fs[i].output.terminate == Some(true)
  }

  /** A blocked or failed preparation is an error, and can end the batch only through a hook that asks for it. */
  lemma {:induction false} ImmediateTerminates(call: ToolCall, inp: CallInput, aborted: bool)
    requires Prepare(call, inp, aborted).Immediate?
    ensures Outcome(call, inp, aborted).isError && Outcome(call, inp, aborted).call == call
    ensures Prepare(call, inp, aborted).output.terminate == Some(true) <==>
      inp.lookup.Valid? && !aborted && inp.before.BeforeReturns? && inp.before.block && inp.before.terminate
  {
  }

  // ---- A sequential batch ----

  /** One call on its own. */
  function Outcome(call: ToolCall, inp: CallInput, aborted: bool): Finalized {
    match Prepare(call, inp, aborted)
    case Immediate(output) => Finalized(call, output, true)
    case Prepared => Finalize(call, inp)
  }

  /** The finalized calls from call `i` on; the batch stops after a call that leaves the signal raised. */
  function Sequential(calls: seq<ToolCall>, inputs: nat -> CallInput, i: nat, aborted: bool): seq<Finalized>
    requires i <= |calls|
    decreases |calls| - i
  {
    if i == |calls| then []
    else
      var inp := inputs(i);
      var prepared := aborted || inp.abortInPrepare;
      var later := prepared || inp.abortInCall;
      [Outcome(calls[i], inp, prepared)] + if later then [] else Sequential(calls, inputs, i + 1, later)
  }

  lemma {:induction false} SequentialStep(calls: seq<ToolCall>, inputs: nat -> CallInput, i: nat, aborted: bool)
    requires i < |calls|
    ensures var prepared := aborted || inputs(i).abortInPrepare;
            var later := prepared || inputs(i).abortInCall;
            Sequential(calls, inputs, i, aborted) ==
              [Outcome(calls[i], inputs(i), prepared)] + if later then [] else Sequential(calls, inputs, i + 1, later)
    ensures var prepared := aborted || inputs(i).abortInPrepare;
            var later := prepared || inputs(i).abortInCall;
            SequentialEvents(calls, inputs, i, aborted) ==
              CallEvents(calls[i], inputs(i), prepared)
              + ResultEvents(ResultMessage(Outcome(calls[i], inputs(i), prepared)))
              + if later then [] else SequentialEvents(calls, inputs, i + 1, later)
  {
  }

  lemma {:induction false} SequentialEnd(calls: seq<ToolCall>, inputs: nat -> CallInput, aborted: bool)
    ensures Sequential(calls, inputs, |calls|, aborted) == [] && SequentialEvents(calls, inputs, |calls|, aborted) == []
  {
  }

  /** What a sequential batch emits, call after call: start, partial results, end, and the result's message. */
  function Updates(call: ToolCall, partials: seq<string>): seq<Event> {
    seq(|partials|, i requires 0 <= i < |partials| => ToolUpdate(call, partials[i]))
  }

  function CallEvents(call: ToolCall, inp: CallInput, aborted: bool): seq<Event> {
    var f := Outcome(call, inp, aborted);
    [ToolStart(call)] + (if Prepare(call, inp, aborted).Prepared? then Updates(call, inp.updates) else [])
    + [ToolEnd(call, f.output, f.isError)]
  }

  function ResultEvents(m: ToolResultMessage): seq<Event> {
    [MessageStart(FromTool(m)), MessageEnd(FromTool(m))]
  }

  function SequentialEvents(calls: seq<ToolCall>, inputs: nat -> CallInput, i: nat, aborted: bool): seq<Event>
    requires i <= |calls|
    decreases |calls| - i
  {
    if i == |calls| then []
    else
      var inp := inputs(i);
      var prepared := aborted || inp.abortInPrepare;
      var later := prepared || inp.abortInCall;
      CallEvents(calls[i], inp, prepared) + ResultEvents(ResultMessage(Outcome(calls[i], inp, prepared)))
      + if later then [] else SequentialEvents(calls, inputs, i + 1, later)
  }

  // ---- A parallel batch ----

  /** What the preparation loop leaves for a call: an outcome, or a tool still to run. */
  datatype Entry = Ready(outcome: Finalized) | Waiting(call: ToolCall)

  function EntryFor(call: ToolCall, inp: CallInput, aborted: bool): Entry {
    match Prepare(call, inp, aborted)
    case Immediate(output) => Ready(Finalized(call, output, true))
    case Prepared => Waiting(call)
  }

  /** Entries of the preparation loop from call `i` on. */
  function Entries(calls: seq<ToolCall>, inputs: nat -> CallInput, i: nat, aborted: bool): seq<Entry>
    requires i <= |calls|
    decreases |calls| - i
  {
    if i == |calls| then []
    else
      var inp := inputs(i);
      var prepared := aborted || inp.abortInPrepare;
      var later := prepared || inp.abortInCall;
      [EntryFor(calls[i], inp, prepared)] + if later then [] else Entries(calls, inputs, i + 1, later)
  }

  /** The signal at the end of that loop. */
  function AbortedAfterEntries(calls: seq<ToolCall>, inputs: nat -> CallInput, i: nat, aborted: bool): bool
    requires i <= |calls|
    decreases |calls| - i
  {
    if i == |calls| then aborted
    else
      var inp := inputs(i);
      var later := aborted || inp.abortInPrepare || inp.abortInCall;
      later || AbortedAfterEntries(calls, inputs, i + 1, later)
  }

  lemma {:induction false} EntriesStep(calls: seq<ToolCall>, inputs: nat -> CallInput, i: nat, aborted: bool)
    requires i < |calls|
    ensures var prepared := aborted || inputs(i).abortInPrepare;
            var later := prepared || inputs(i).abortInCall;
            && Entries(calls, inputs, i, aborted) ==
                 [EntryFor(calls[i], inputs(i), prepared)] + (if later then [] else Entries(calls, inputs, i + 1, later))
            && AbortedAfterEntries(calls, inputs, i, aborted) ==
                 (later || AbortedAfterEntries(calls, inputs, i + 1, later))
  {
  }

  lemma {:induction false} EntriesEnd(calls: seq<ToolCall>, inputs: nat -> CallInput, aborted: bool)
    ensures Entries(calls, inputs, |calls|, aborted) == []
    ensures AbortedAfterEntries(calls, inputs, |calls|, aborted) == aborted
  {
  }

  /** The outcome of an entry once it has run: a tool not yet started when the signal is raised is aborted. */
  function EntryOutcome(e: Entry, inp: CallInput, aborted: bool): Finalized {
    match e
    case Ready(outcome) => outcome
    case Waiting(call) =>
      if aborted then Finalized(call, ErrorOutput(OperationAborted), true) else Finalize(call, inp)
  }

  /** The outcomes of all entries, which start in order; entry `k` of the list belongs to input `i + k`. */
  function Outcomes(entries: seq<Entry>, inputs: nat -> CallInput, i: nat, aborted: bool): (r: seq<Finalized>)
    ensures |r| == |entries|
  {
    if entries == [] then []
    else
      var later := aborted || (entries[0].Waiting? && inputs(i).abortAtStart);
      [EntryOutcome(entries[0], inputs(i), aborted)] + Outcomes(entries[1..], inputs, i + 1, later)
  }

  lemma {:induction false} OutcomesStep(entries: seq<Entry>, inputs: nat -> CallInput, j: nat, aborted: bool)
    requires j < |entries|
    ensures Outcomes(entries[j..], inputs, j, aborted)
         == [EntryOutcome(entries[j], inputs(j), aborted)]
            + Outcomes(entries[j + 1..], inputs, j + 1, aborted || (entries[j].Waiting? && inputs(j).abortAtStart))
  {
    assert entries[j..][1..] == entries[j + 1..];
  }

  lemma {:induction false} OutcomesOfNone(inputs: nat -> CallInput, i: nat, aborted: bool)
    ensures Outcomes([], inputs, i, aborted) == []
  {
  }

  function Parallel(calls: seq<ToolCall>, inputs: nat -> CallInput, aborted: bool): seq<Finalized> {
    Outcomes(Entries(calls, inputs, 0, aborted), inputs, 0, AbortedAfterEntries(calls, inputs, 0, aborted))
  }

  // ---- Parallel refines sequential ----

  ghost predicate NoAborts(inputs: nat -> CallInput, n: nat) {
    forall i: nat | i < n :: NoAbort(inputs(i))
  }

  lemma {:induction false} ParallelRefinesSequentialFrom(calls: seq<ToolCall>, inputs: nat -> CallInput, i: nat)
    requires i <= |calls| && NoAborts(inputs, |calls|)
    ensures !AbortedAfterEntries(calls, inputs, i, false)
    ensures Outcomes(Entries(calls, inputs, i, false), inputs, i, false) == Sequential(calls, inputs, i, false)
    ensures |Sequential(calls, inputs, i, false)| == |calls| - i
    decreases |calls| - i
  {
    if i < |calls| {
      assert NoAbort(inputs(i));
      ParallelRefinesSequentialFrom(calls, inputs, i + 1);
      var entries := Entries(calls, inputs, i, false);
      assert entries[1..] == Entries(calls, inputs, i + 1, false);
    }
  }

  /** With no abort, a parallel batch yields the results of the sequential batch, in source order,
      one for each call, and the same verdict on ending the batch. */
  lemma {:induction false} ParallelRefinesSequential(calls: seq<ToolCall>, inputs: nat -> CallInput)
    requires NoAborts(inputs, |calls|)
    ensures var p, s := Parallel(calls, inputs, false), Sequential(calls, inputs, 0, false);
            && ResultMessages(p) == ResultMessages(s)
            && ShouldTerminate(p) == ShouldTerminate(s)
            && |p| == |calls|
  {
    ParallelRefinesSequentialFrom(calls, inputs, 0);
  }

  // ---- Which calls are answered ----

  /** The outcomes answer the first calls, in order. */
  predicate AnswersPrefix(fs: seq<Finalized>, calls: seq<ToolCall>) {
    |fs| <= |calls| && forall k | 0 <= k < |fs| :: fs[k].call == calls[k]
  }

  lemma {:induction false} SequentialAnswers(calls: seq<ToolCall>, inputs: nat -> CallInput, i: nat, aborted: bool)
    requires i <= |calls|
    ensures AnswersPrefix(Sequential(calls, inputs, i, aborted), calls[i..])
    ensures i < |calls| ==> Sequential(calls, inputs, i, aborted) != []
    decreases |calls| - i
  {
    if i < |calls| {
      SequentialAnswers(calls, inputs, i + 1, aborted || inputs(i).abortInPrepare || inputs(i).abortInCall);
      assert calls[i..][1..] == calls[i + 1..];
    }
  }

  function EntryCall(e: Entry): ToolCall {
    if e.Ready? then e.outcome.call else e.call
  }

  lemma {:induction false} EntriesAnswer(calls: seq<ToolCall>, inputs: nat -> CallInput, i: nat, aborted: bool)
    requires i <= |calls|
    ensures var es := Entries(calls, inputs, i, aborted);
            |es| <= |calls| - i && forall k | 0 <= k < |es| :: EntryCall(es[k]) == calls[i + k]
    ensures i < |calls| ==> Entries(calls, inputs, i, aborted) != []
    decreases |calls| - i
  {
    if i < |calls| {
      EntriesAnswer(calls, inputs, i + 1, aborted || inputs(i).abortInPrepare || inputs(i).abortInCall);
    }
  }

  lemma {:induction false} OutcomesAnswer(entries: seq<Entry>, inputs: nat -> CallInput, i: nat, aborted: bool)
    ensures forall k | 0 <= k < |entries| :: Outcomes(entries, inputs, i, aborted)[k].call == EntryCall(entries[k])
  {
    if entries != [] {
      var rest := entries[1..];
      OutcomesAnswer(rest, inputs, i + 1, aborted || (entries[0].Waiting? && inputs(i).abortAtStart));
      assert forall k | 0 <= k < |rest| :: rest[k] == entries[k + 1];
    }
  }

  /** Aborted or not, the results of a non-empty sequential batch answer a non-empty prefix of its calls. */
  lemma {:induction false} SequentialAnswersPrefix(calls: seq<ToolCall>, inputs: nat -> CallInput, aborted: bool)
    ensures AnswersPrefix(Sequential(calls, inputs, 0, aborted), calls)
    ensures calls != [] ==> Sequential(calls, inputs, 0, aborted) != []
  {
    SequentialAnswers(calls, inputs, 0, aborted);
    assert calls[0..] == calls;
  }

  /** The same for a parallel batch. */
  lemma {:induction false} ParallelAnswersPrefix(calls: seq<ToolCall>, inputs: nat -> CallInput, aborted: bool)
    ensures AnswersPrefix(Parallel(calls, inputs, aborted), calls)
    ensures calls != [] ==> Parallel(calls, inputs, aborted) != []
  {
    EntriesAnswer(calls, inputs, 0, aborted);
    OutcomesAnswer(Entries(calls, inputs, 0, aborted), inputs, 0, AbortedAfterEntries(calls, inputs, 0, aborted));
  }
}
