/**
 The record of a run, and what it must be: what each turn does with its inputs, what it takes from the queues, and
 what the context of the loop builds on.
 */
module AgentRecords {
  import opened AgentTypes
  import opened AgentQueue
  import opened AgentTools
  import opened Options

  // ---- Inputs ----

  /** What other code may do to the queues while the loop awaits something. */
  datatype QueueOp =
    | Steer(message: Message) | FollowUp(message: Message)
    | ClearSteering | ClearFollowUps
    | SetSteeringMode(mode: QueueMode) | SetFollowUpMode(mode: QueueMode)

  datatype StreamEvent = Start(partial: AssistantMessage) | Update(partial: AssistantMessage) | End

  datatype StreamInput = StreamInput(events: seq<StreamEvent>, final: AssistantMessage)

  /** One event of concurrent tools: a partial result, `execute` settling, or the after hook settling. */
  datatype Completion = Progress(k: nat, partial: string) | Settle(k: nat) | Finish(k: nat)

  datatype TurnInput = TurnInput(
    newContext: Option<seq<Message>>, stream: StreamInput,
    calls: nat -> CallInput, schedule: seq<Completion>, shouldStop: bool,
    whilePreparing: seq<QueueOp>, whileRunning: seq<QueueOp>, whileIdle: seq<QueueOp>)

  /** The slots of `context.messages` that a stream fills: one for each start, overwritten by updates. */
  function SlotsFrom(slots: seq<AssistantMessage>, events: seq<StreamEvent>): (r: seq<AssistantMessage>)
    ensures |slots| <= |r|
    decreases |events|
  {
    if events == [] then slots
    else
      match events[0]
      case Start(p) => SlotsFrom(slots + [p], events[1..])
      case Update(p) => SlotsFrom(if slots == [] then slots else slots[|slots| - 1 := p], events[1..])
      case End => slots
  }

  /** How often a stream starts before it ends. */
  function Starts(events: seq<StreamEvent>): nat {
    if events == [] || events[0].End? then 0
    else (if events[0].Start? then 1 else 0) + Starts(events[1..])
  }

  predicate AtMostOneStart(s: StreamInput) { Starts(s.events) <= 1 }

  /** A stream fills one slot of the context for each start. */
  lemma {:induction false} SlotForEachStart(slots: seq<AssistantMessage>, events: seq<StreamEvent>)
    ensures |SlotsFrom(slots, events)| == |slots| + Starts(events)
    decreases |events|
  {
    if events != [] && !events[0].End? {
      match events[0]
      case Start(p) => SlotForEachStart(slots + [p], events[1..]);
      case Update(p) => SlotForEachStart(if slots == [] then slots else slots[|slots| - 1 := p], events[1..]);
      case End =>
    }
  }

  function FromAssistants(ms: seq<AssistantMessage>): seq<Message> {
    seq(|ms|, i requires 0 <= i < |ms| => FromAssistant(ms[i]))
  }

  /** The partial messages a stream leaves behind in the context. */
  function Stale(s: StreamInput): seq<Message> {
    var slots := SlotsFrom([], s.events);
    if slots == [] then [] else FromAssistants(slots[..|slots| - 1])
  }

  /** A stream leaves nothing but its final message in the context exactly when it starts at most once. */
  lemma {:induction false} NothingStale(s: StreamInput)
    ensures Stale(s) == [] <==> AtMostOneStart(s)
  {
    SlotForEachStart([], s.events);
  }

  datatype Source = Steering | FollowUps

  /** The operation does not set the queue to another mode. */
  predicate KeepsMode(op: QueueOp, source: Source, mode: QueueMode) {
    && (source.Steering? && op.SetSteeringMode? ==> op.mode == mode)
    && (source.FollowUps? && op.SetFollowUpMode? ==> op.mode == mode)
  }

  predicate AllKeepMode(ops: seq<QueueOp>, source: Source, mode: QueueMode) {
    forall i | 0 <= i < |ops| :: KeepsMode(ops[i], source, mode)
  }

  /** The inputs of one run: queue operations before the first poll, then one input a turn. */
  datatype Script = Script(whileStarting: seq<QueueOp>, turns: seq<TurnInput>) {
    predicate OneStartEach() { forall i | 0 <= i < |turns| :: AtMostOneStart(turns[i].stream) }

    /** Nobody sets the queue to another mode during the run. */
    predicate KeepMode(source: Source, mode: QueueMode) {
      && AllKeepMode(whileStarting, source, mode)
      && forall i | 0 <= i < |turns| ::
        && AllKeepMode(turns[i].whilePreparing, source, mode)
        && AllKeepMode(turns[i].whileRunning, source, mode)
        && AllKeepMode(turns[i].whileIdle, source, mode)
    }
  }

  // ---- The record of a run ----

  /** What one completed turn did: which queue its injected messages came from and that queue's mode when they were
      taken, and whether the abort signal was raised when its tools began. */
  datatype Turn = Turn(
    source: Source, mode: QueueMode, injected: seq<Message>,
    assistant: AssistantMessage, aborted: bool, results: seq<ToolResultMessage>,
    more: bool, halted: bool)

  function TurnMessages(t: Turn): seq<Message> {
    t.injected + [FromAssistant(t.assistant)] + ToolMessages(t.results)
  }

  function LogMessages(log: seq<Turn>): seq<Message> {
    if log == [] then [] else LogMessages(log[..|log| - 1]) + TurnMessages(log[|log| - 1])
  }

  function InjectedFrom(log: seq<Turn>, source: Source): seq<Message> {
    if log == [] then []
    else
      var t := log[|log| - 1];
      InjectedFrom(log[..|log| - 1], source) + if t.source == source then t.injected else []
  }

  lemma {:induction false} LogOneMore(log: seq<Turn>, t: Turn)
    ensures LogMessages(log + [t]) == LogMessages(log) + TurnMessages(t)
    ensures InjectedFrom(log + [t], Steering)
         == InjectedFrom(log, Steering) + if t.source.Steering? then t.injected else []
    ensures InjectedFrom(log + [t], FollowUps)
         == InjectedFrom(log, FollowUps) + if t.source.FollowUps? then t.injected else []
  {
    assert (log + [t])[..|log|] == log;
  }

  predicate SequentialBatch(config: bool, calls: seq<ToolCall>, inputs: nat -> CallInput) {
    config || exists k: nat | k < |calls| :: inputs(k).sequentialTool
  }

  /** What the tool calls of a message come to: results, and whether they call for another turn. */
  predicate BatchResult(
    calls: seq<ToolCall>, truncated: bool, sequential: bool, inputs: nat -> CallInput, aborted: bool,
    results: seq<ToolResultMessage>, more: bool)
  {
    if calls == [] then results == [] && !more
    else if truncated then
      more && results == ResultMessages(seq(|calls|, k requires 0 <= k < |calls| => Truncated(calls[k])))
    else
      var fs :=
        if sequential then AgentTools.Sequential(calls, inputs, 0, aborted) else Parallel(calls, inputs, aborted);
      results == ResultMessages(fs) && more == !ShouldTerminate(fs)
  }

  lemma {:induction false} NoBatch(truncated: bool, sequential: bool, inputs: nat -> CallInput, aborted: bool)
    ensures BatchResult([], truncated, sequential, inputs, aborted, [], false)
  {
  }

  lemma {:induction false} TruncatedBatch(
    calls: seq<ToolCall>, sequential: bool, inputs: nat -> CallInput, aborted: bool, results: seq<ToolResultMessage>)
    requires calls != []
    requires results == ResultMessages(seq(|calls|, k requires 0 <= k < |calls| => Truncated(calls[k])))
    ensures BatchResult(calls, true, sequential, inputs, aborted, results, true)
    ensures |results| == |calls|
  {
  }

  /** A completed turn did what its input calls for. */
  ghost predicate TurnFollows(t: Turn, inp: TurnInput, sequentialConfig: bool) {
    && t.assistant == inp.stream.final
    && t.halted == (t.assistant.Broken() || inp.shouldStop)
    && if t.assistant.Broken() then t.results == [] && !t.more
       else
         var calls := t.assistant.ToolCalls();
         BatchResult(calls, t.assistant.stop.Length?, SequentialBatch(sequentialConfig, calls, inp.calls),
                     inp.calls, t.aborted, t.results, t.more)
  }

  /** The results of a completed turn answer its calls in order: all of them when the message was cut
      off, a non-empty prefix otherwise, and none after a failed or aborted response. */
  lemma {:induction false} TurnAnswersCalls(t: Turn, inp: TurnInput, sequentialConfig: bool)
    requires TurnFollows(t, inp, sequentialConfig)
    ensures var calls := t.assistant.ToolCalls();
            && |t.results| <= |calls|
            && (forall k | 0 <= k < |t.results| ::
                  t.results[k].callId == calls[k].id && t.results[k].name == calls[k].name)
            && (t.assistant.Broken() ==> t.results == [])
            && (!t.assistant.Broken() && calls != [] ==> t.results != [])
            && (t.assistant.stop.Length? ==> |t.results| == |calls|)
  {
    hide CallsOf, AgentTools.Sequential, Outcomes, Entries;
    var calls := t.assistant.ToolCalls();
    if !t.assistant.Broken() && calls != [] && !t.assistant.stop.Length? {
      SequentialAnswersPrefix(calls, inp.calls, t.aborted);
      ParallelAnswersPrefix(calls, inp.calls, t.aborted);
    }
  }

  /** Why the loop went on after turn `t`: it did not halt, and it had more calls, steering, or a follow-up. */
  predicate GoesOn(t: Turn, next: Turn) {
    && !t.halted
    && (next.injected == [] ==> t.more)
    && (next.source.FollowUps? ==> !t.more)
  }

  /** None of the turn's calls has the abort signal raised while it is worked on. */
  ghost predicate Unaborted(inp: TurnInput) {
    NoAborts(inp.calls, |inp.stream.final.ToolCalls()|)
  }

  ghost predicate RaisedBefore(turns: seq<TurnInput>, n: nat)
    requires n <= |turns|
  {
    exists j | 0 <= j < n :: !Unaborted(turns[j])
  }

  ghost predicate LogFollows(log: seq<Turn>, turns: seq<TurnInput>, sequentialConfig: bool) {
    && |log| <= |turns|
    && (forall i | 0 <= i < |log| :: TurnFollows(log[i], turns[i], sequentialConfig))
    && (forall i | 0 <= i < |log| :: log[i].aborted ==> RaisedBefore(turns, i))
    && (forall i | 0 < i < |log| :: GoesOn(log[i - 1], log[i]))
  }

  lemma {:induction false} FollowsMore(log: seq<Turn>, turns: seq<TurnInput>, sequentialConfig: bool, t: Turn)
    requires LogFollows(log, turns, sequentialConfig) && |log| < |turns|
    requires TurnFollows(t, turns[|log|], sequentialConfig) && (t.aborted ==> RaisedBefore(turns, |log|))
    requires log != [] ==> GoesOn(log[|log| - 1], t)
    ensures LogFollows(log + [t], turns, sequentialConfig)
  {
    hide TurnFollows, RaisedBefore, GoesOn;
  }

  lemma RaisedLater(turns: seq<TurnInput>, n: nat)
    requires n < |turns|
    ensures RaisedBefore(turns, n) || !Unaborted(turns[n]) ==> RaisedBefore(turns, n + 1)
  {
    hide Unaborted;
  }

  lemma {:induction false} EmptyLog(turns: seq<TurnInput>, sequentialConfig: bool)
    ensures LogMessages([]) == [] && LogFollows([], turns, sequentialConfig)
    ensures InjectedFrom([], Steering) == [] && InjectedFrom([], FollowUps) == []
  {
  }

  /** If nothing aborts a run up to the end of its turn `i`, that turn's results are those of its calls one after the
      other with no abort, one for each call, whichever way its batch ran; a cut-off message's calls all fail. */
  lemma {:induction false} UnabortedResults(
    log: seq<Turn>, turns: seq<TurnInput>, sequentialConfig: bool, i: nat)
    requires LogFollows(log, turns, sequentialConfig) && i < |log| && !log[i].assistant.Broken()
    requires forall j | 0 <= j <= i :: Unaborted(turns[j])
    ensures var t, calls := log[i], log[i].assistant.ToolCalls();
      && |t.results| == |calls|
      && (!t.assistant.stop.Length? ==>
           var fs := AgentTools.Sequential(calls, turns[i].calls, 0, false);
           t.results == ResultMessages(fs) && (calls != [] ==> t.more == !ShouldTerminate(fs)))
  {
    hide CallsOf, AgentTools.Sequential, Outcomes, Entries, AbortedAfterEntries, ResultMessages;
    var t, calls := log[i], log[i].assistant.ToolCalls();
    assert TurnFollows(t, turns[i], sequentialConfig) && Unaborted(turns[i]);
    assert !t.aborted;
    ParallelRefinesSequential(calls, turns[i].calls);
    NoCalls(turns[i].calls);
    SameLength(AgentTools.Sequential(calls, turns[i].calls, 0, false), Parallel(calls, turns[i].calls, false));
  }

  lemma {:induction false} NoCalls(inputs: nat -> CallInput)
    ensures ResultMessages(AgentTools.Sequential([], inputs, 0, false)) == []
  {
  }

  lemma {:induction false} SameLength(fs: seq<Finalized>, gs: seq<Finalized>)
    ensures ResultMessages(fs) == ResultMessages(gs) ==> |fs| == |gs|
  {
  }

  lemma Append(a: seq<Message>, b: seq<Message>, c: seq<Message>)
    ensures a + b + c == a + (b + c) == a + (b + c) + []
  {
  }

  lemma {:induction false} SameTail(a: seq<Message>, x: seq<Message>, y: seq<Message>)
    requires a + x == a + y
    ensures x == y
  {
    assert x == (a + x)[|a|..] && y == (a + y)[|a|..];
  }

  // ---- What the queues give ----

  /** A queue as far as the loop sees it. */
  datatype Queue = Queue(messages: seq<Message>, mode: QueueMode)

  datatype Queues = Queues(steering: Queue, followUps: Queue) {
    function Of(source: Source): Queue { if source.Steering? then steering else followUps }

    function With(source: Source, w: Queue): Queues {
      if source.Steering? then this.(steering := w) else this.(followUps := w)
    }
  }

  function OpDone(q: Queues, op: QueueOp): Queues {
    match op
    case Steer(m) => q.(steering := q.steering.(messages := q.steering.messages + [m]))
    case FollowUp(m) => q.(followUps := q.followUps.(messages := q.followUps.messages + [m]))
    case ClearSteering => q.(steering := q.steering.(messages := []))
    case ClearFollowUps => q.(followUps := q.followUps.(messages := []))
    case SetSteeringMode(mode) => q.(steering := q.steering.(mode := mode))
    case SetFollowUpMode(mode) => q.(followUps := q.followUps.(mode := mode))
  }

  function OpsDone(q: Queues, ops: seq<QueueOp>): Queues {
    if ops == [] then q else OpDone(OpsDone(q, ops[..|ops| - 1]), ops[|ops| - 1])
  }

  /** What is pending, the queue it was taken from, that queue's mode then, and what the queues are since. */
  datatype Held = Held(queues: Queues, source: Source, mode: QueueMode, messages: seq<Message>)

  function Poll(q: Queues, source: Source): Held {
    var w := q.Of(source);
    var taken := Taken(w.messages, w.mode);
    Held(q.With(source, w.(messages := w.messages[|taken|..])), source, w.mode, taken)
  }

  /** What the first turn injects; a skipped poll leaves the queues alone. */
  function First(q: Queues, ops: seq<QueueOp>, skips: bool): Held {
    var r := OpsDone(q, ops);
    if skips then Held(r, Steering, r.steering.mode, []) else Poll(r, Steering)
  }

  /** After a turn steering is polled. */
  function AfterTurn(h: Held, inp: TurnInput): Held {
    Poll(OpsDone(h.queues, inp.whileRunning), Steering)
  }

  /** With nothing to go on for, follow-ups are polled. */
  function WhenIdle(h: Held, inp: TurnInput): Held {
    Poll(OpsDone(h.queues, inp.whileIdle), FollowUps)
  }

  /** While the next turn is prepared: steering is polled again only if nothing is pending. */
  function ForNextTurn(h: Held, ops: seq<QueueOp>): Held {
    var r := OpsDone(h.queues, ops);
    if h.messages == [] then Poll(r, Steering) else h.(queues := r)
  }

  /** What the turn after one that held `h` injects. */
  function NextHeld(h: Held, more: bool, inp: TurnInput, next: TurnInput): Held {
    var a := AfterTurn(h, inp);
    ForNextTurn(if a.messages == [] && !more then WhenIdle(a, inp) else a, next.whilePreparing)
  }

  /** What the run begins with: its script, the queues, and whether it skips its first poll. */
  datatype Origin = Origin(script: Script, queues: Queues, skips: bool)

  /** What turn `i` injects, of a run whose turns before it are those of the record. */
  function HeldAt(o: Origin, log: seq<Turn>, i: nat): Held
    requires i <= |log| && (i > 0 ==> i < |o.script.turns|)
  {
    if i == 0 then First(o.queues, o.script.whileStarting, o.skips)
    else NextHeld(HeldAt(o, log, i - 1), log[i - 1].more, o.script.turns[i - 1], o.script.turns[i])
  }

  predicate Injects(t: Turn, h: Held) { t.source == h.source && t.mode == h.mode && t.injected == h.messages }

  /** Every turn of the record injects what the queues give. */
  ghost predicate LogPolls(o: Origin, log: seq<Turn>) {
    |log| <= |o.script.turns| && forall i | 0 <= i < |log| :: Injects(log[i], HeldAt(o, log, i))
  }

  /** After turn `i` there was something to go on for: more calls, a steering message, or a follow-up. */
  predicate LetsGoOn(o: Origin, log: seq<Turn>, i: nat)
    requires i < |log| && i < |o.script.turns|
  {
    var a := AfterTurn(HeldAt(o, log, i), o.script.turns[i]);
    log[i].more || a.messages != [] || WhenIdle(a, o.script.turns[i]).messages != []
  }

  /** Every turn of the record that another one follows let it. */
  ghost predicate LogWentOn(o: Origin, log: seq<Turn>) {
    |log| <= |o.script.turns| && forall i | 0 <= i < |log| - 1 :: LetsGoOn(o, log, i)
  }

  /** How a run has ended: told to stop, or with nothing more to do and neither queue giving anything. */
  ghost predicate Ended(o: Origin, log: seq<Turn>, queues: Queues)
    requires |log| <= |o.script.turns|
  {
    && log != []
    && var n := |log| - 1;
       var h, inp := HeldAt(o, log, n), o.script.turns[n];
       if log[n].halted then queues == h.queues
       else
         var a := AfterTurn(h, inp);
         !log[n].more && a.messages == [] && WhenIdle(a, inp).messages == [] && queues == WhenIdle(a, inp).queues
  }

  lemma {:induction false} HeldAtPrefix(o: Origin, log: seq<Turn>, t: Turn, i: nat)
    requires i <= |log| && (i > 0 ==> i < |o.script.turns|)
    ensures HeldAt(o, log + [t], i) == HeldAt(o, log, i)
  {
    if i > 0 {
      HeldAtPrefix(o, log, t, i - 1);
      assert (log + [t])[i - 1] == log[i - 1];
    }
  }

  lemma {:induction false} PollsMore(o: Origin, log: seq<Turn>, t: Turn)
    requires LogPolls(o, log) && |log| < |o.script.turns| && Injects(t, HeldAt(o, log, |log|))
    ensures LogPolls(o, log + [t]) && HeldAt(o, log + [t], |log|) == HeldAt(o, log, |log|)
  {
    hide HeldAt;
    forall i | 0 <= i < |log| + 1 ensures Injects((log + [t])[i], HeldAt(o, log + [t], i)) {
      HeldAtPrefix(o, log, t, i);
    }
    HeldAtPrefix(o, log, t, |log|);
  }

  lemma {:induction false} WentOnMore(o: Origin, log: seq<Turn>, t: Turn)
    requires LogWentOn(o, log) && |log| < |o.script.turns| && (log != [] ==> LetsGoOn(o, log, |log| - 1))
    ensures LogWentOn(o, log + [t])
  {
    forall i | 0 <= i < |log| ensures LetsGoOn(o, log + [t], i) {
      HeldAtPrefix(o, log, t, i);
      assert LetsGoOn(o, log, i);
      hide HeldAt, AfterTurn, WhenIdle;
    }
  }

  /** Between turns, `p` is what the polls since the last turn gave. */
  predicate IsPolled(o: Origin, log: seq<Turn>, p: Held)
    requires |log| <= |o.script.turns|
  {
    if log == [] then p == HeldAt(o, log, 0)
    else
      var n := |log| - 1;
      var inp := o.script.turns[n];
      var a := AfterTurn(HeldAt(o, log, n), inp);
      if p.source.Steering? then p == a else a.messages == [] && !log[n].more && p == WhenIdle(a, inp)
  }

  /** What another turn injects, when the last one lets it begin. */
  lemma {:induction false} HeldNext(o: Origin, log: seq<Turn>, p: Held)
    requires 0 < |log| < |o.script.turns| && IsPolled(o, log, p)
    requires p.source.Steering? && p.messages == [] ==> log[|log| - 1].more
    ensures HeldAt(o, log, |log|) == ForNextTurn(p, o.script.turns[|log|].whilePreparing)
  {
    hide AfterTurn, WhenIdle, ForNextTurn;
  }

  /** If what was polled lets a turn follow, the last one let it. */
  lemma {:induction false} PolledLetsGoOn(o: Origin, log: seq<Turn>, p: Held)
    requires 0 < |log| <= |o.script.turns| && IsPolled(o, log, p) && (p.messages == [] ==> log[|log| - 1].more)
    ensures LetsGoOn(o, log, |log| - 1)
  {
    hide AfterTurn, WhenIdle, HeldAt;
  }

  /** A run that skips its first poll injects nothing in its first turn. */
  lemma FirstSkipped(o: Origin, log: seq<Turn>)
    requires LogPolls(o, log) && o.skips && log != []
    ensures log[0].injected == []
  {
    assert Injects(log[0], HeldAt(o, log, 0));
  }

  lemma NothingPolled(o: Origin)
    ensures LogPolls(o, []) && LogWentOn(o, [])
  {
  }

  // ---- One message at a time ----

  lemma {:induction false} ModeKept(q: Queues, ops: seq<QueueOp>, source: Source, mode: QueueMode)
    requires q.Of(source).mode == mode && AllKeepMode(ops, source, mode)
    ensures OpsDone(q, ops).Of(source).mode == mode
  {
    if ops != [] {
      ModeKept(q, ops[..|ops| - 1], source, mode);
      assert KeepsMode(ops[|ops| - 1], source, mode);
    }
  }

  /** The queue gives one message at a time, and no more than one of it is pending. */
  predicate OneByOne(h: Held, source: Source) {
    && h.queues.Of(source).mode.OneAtATime?
    && (h.source == source ==> h.mode.OneAtATime? && |h.messages| <= 1)
  }

  predicate StartsOneByOne(o: Origin, source: Source) {
    o.queues.Of(source).mode.OneAtATime? && o.script.KeepMode(source, OneAtATime)
  }

  lemma {:induction false} PollsOne(q: Queues, ops: seq<QueueOp>, source: Source, polled: Source)
    requires q.Of(source).mode.OneAtATime? && AllKeepMode(ops, source, OneAtATime)
    ensures OneByOne(Poll(OpsDone(q, ops), polled), source)
  {
    ModeKept(q, ops, source, OneAtATime);
  }

  lemma {:induction false} PreparedOne(h: Held, ops: seq<QueueOp>, source: Source)
    requires OneByOne(h, source) && AllKeepMode(ops, source, OneAtATime)
    ensures OneByOne(ForNextTurn(h, ops), source)
  {
    ModeKept(h.queues, ops, source, OneAtATime);
  }

  lemma {:induction false} HeldOneByOne(o: Origin, log: seq<Turn>, source: Source, i: nat)
    requires StartsOneByOne(o, source) && i <= |log| && (i > 0 ==> i < |o.script.turns|)
    ensures OneByOne(HeldAt(o, log, i), source)
  {
    hide OpsDone, OneByOne;
    if i == 0 {
      FirstOne(o, source);
    } else {
      HeldOneByOne(o, log, source, i - 1);
      var h, inp := HeldAt(o, log, i - 1), o.script.turns[i - 1];
      AfterOne(o, h, source, i - 1);
      var a := AfterTurn(h, inp);
      hide AfterTurn, ForNextTurn;
      PreparedOne(a, o.script.turns[i].whilePreparing, source);
      PreparedOne(WhenIdle(a, inp), o.script.turns[i].whilePreparing, source);
    }
  }

  lemma {:induction false} FirstOne(o: Origin, source: Source)
    requires StartsOneByOne(o, source)
    ensures OneByOne(First(o.queues, o.script.whileStarting, o.skips), source)
  {
    PollsOne(o.queues, o.script.whileStarting, source, Steering);
    ModeKept(o.queues, o.script.whileStarting, source, OneAtATime);
  }

  lemma {:induction false} AfterOne(o: Origin, h: Held, source: Source, i: nat)
    requires StartsOneByOne(o, source) && i < |o.script.turns| && OneByOne(h, source)
    ensures OneByOne(AfterTurn(h, o.script.turns[i]), source)
    ensures OneByOne(WhenIdle(AfterTurn(h, o.script.turns[i]), o.script.turns[i]), source)
  {
    hide OpsDone, Poll;
    PollsOne(h.queues, o.script.turns[i].whileRunning, source, Steering);
    PollsOne(AfterTurn(h, o.script.turns[i]).queues, o.script.turns[i].whileIdle, source, FollowUps);
  }

  lemma {:induction false} PolledOneByOne(o: Origin, log: seq<Turn>, p: Held, source: Source)
    requires StartsOneByOne(o, source) && |log| <= |o.script.turns| && IsPolled(o, log, p)
    ensures OneByOne(p, source)
  {
    hide OneByOne, StartsOneByOne, AfterTurn, WhenIdle;
    if log == [] {
      HeldOneByOne(o, log, source, 0);
    } else {
      var n := |log| - 1;
      HeldOneByOne(o, log, source, n);
      AfterOne(o, HeldAt(o, log, n), source, n);
    }
  }

  /** A queue that gives one message at a time when the run begins, and that nobody sets to another mode, gives every
      turn at most one. */
  lemma {:induction false} OneEachTurn(o: Origin, log: seq<Turn>, source: Source, i: nat)
    requires StartsOneByOne(o, source) && LogPolls(o, log) && i < |log| && log[i].source == source
    ensures log[i].mode.OneAtATime? && |log[i].injected| <= 1
  {
    HeldOneByOne(o, log, source, i);
    hide HeldAt;
    assert Injects(log[i], HeldAt(o, log, i));
  }

  // ---- What the loop's context builds on ----

  /** The context is these messages and then the new messages from an index on. */
  datatype Base = Base(messages: seq<Message>, at: nat)

  /** The base when `n` turns have begun: the last context that came with one of them after the first, or the transcript
      before the run. */
  function BaseAfter(before: seq<Message>, prompts: seq<Message>, turns: seq<TurnInput>, log: seq<Turn>, n: nat): Base
    requires n > 1 ==> n <= |turns| && n <= |log| + 1
  {
    if n <= 1 then Base(before, 0)
    else
      match turns[n - 1].newContext
      case Some(context) => Base(context, |prompts| + |LogMessages(log[..n - 1])|)
      case None => BaseAfter(before, prompts, turns, log, n - 1)
  }

  lemma {:induction false} BasePrefix(
    before: seq<Message>, prompts: seq<Message>, turns: seq<TurnInput>, log: seq<Turn>, t: Turn, n: nat)
    requires n > 1 ==> n <= |turns| && n <= |log| + 1
    ensures BaseAfter(before, prompts, turns, log + [t], n) == BaseAfter(before, prompts, turns, log, n)
  {
    if n > 1 {
      BasePrefix(before, prompts, turns, log, t, n - 1);
      assert (log + [t])[..n - 1] == log[..n - 1];
    }
  }

  lemma {:induction false} BaseNext(before: seq<Message>, prompts: seq<Message>, turns: seq<TurnInput>, log: seq<Turn>)
    requires 0 < |log| < |turns|
    ensures BaseAfter(before, prompts, turns, log, |log| + 1) ==
      match turns[|log|].newContext
      case Some(context) => Base(context, |prompts + LogMessages(log)|)
      case None => BaseAfter(before, prompts, turns, log, |log|)
  {
    assert log[..|log|] == log;
  }

  /** With no replacing context the base is the transcript before the run. */
  lemma {:induction false} NoneReplaced(
    before: seq<Message>, prompts: seq<Message>, turns: seq<TurnInput>, log: seq<Turn>, n: nat)
    requires n > 1 ==> n <= |turns| && n <= |log| + 1
    requires forall j | 0 < j < n :: turns[j].newContext.None?
    ensures BaseAfter(before, prompts, turns, log, n) == Base(before, 0)
  {
    if n > 1 { NoneReplaced(before, prompts, turns, log, n - 1); }
  }

  /** Otherwise it is the last replacing context, and the new messages count from the turn it came with. */
  lemma {:induction false} LastReplaced(
    before: seq<Message>, prompts: seq<Message>, turns: seq<TurnInput>, log: seq<Turn>, n: nat, k: nat)
    requires 0 < k < n <= |turns| && n <= |log| + 1 && turns[k].newContext.Some?
    requires forall j | k < j < n :: turns[j].newContext.None?
    ensures BaseAfter(before, prompts, turns, log, n)
         == Base(turns[k].newContext.value, |prompts + LogMessages(log[..k])|)
  {
    if k < n - 1 { LastReplaced(before, prompts, turns, log, n - 1, k); }
  }
}
