/**
 Event streams: the grammar every run must follow, the messages a stream delivers,
 and the reducer that turns a stream into the state of the `Agent`.
 */
module AgentEvents {
  import opened AgentTypes
  import opened Options

  // ---- The messages a stream delivers ----

  function MessageEnds(trace: seq<Event>): seq<Message> {
    if trace == [] then []
    else
      var n := |trace| - 1;
      MessageEnds(trace[..n]) + if trace[n].MessageEnd? then [trace[n].message] else []
  }

  // ---- The grammar, as an automaton ----

  /** What a turn's tools have done: the calls started, in order, and the results of those that have ended. */
  datatype Batch = Batch(started: seq<ToolCall>, ended: multiset<ToolResultMessage>)

  const NO_TOOLS := Batch([], multiset{})

  /** The results answer the started calls, in order, and are what those calls ended with. */
  predicate Answers(results: seq<ToolResultMessage>, b: Batch) {
    && |results| == |b.started|
    && (forall k | 0 <= k < |results| :: results[k].callId == b.started[k].id && results[k].name == b.started[k].name)
    && multiset(results) == b.ended
  }

  /** `open` counts the started and not yet ended tool executions of each call id. A turn may end once none is open,
      with the results of the tools it ran for the first calls of its message. */
  datatype Phase =
    | Idle
    | BeforeFirstTurn
    | InTurn(open: multiset<CallId>, message: Option<Message>, batch: Batch)
    | BetweenTurns
    | Finished
    | Broken

  /** An assistant message may change while it streams; every other message may not. */
  predicate SameMessage(started: Message, ended: Message) {
    started == ended || (started.FromAssistant? && ended.FromAssistant?)
  }

  function Next(p: Phase, e: Event): Phase {
    match p
    case Idle => if e.AgentStart? then BeforeFirstTurn else Broken
    case BeforeFirstTurn => if e.TurnStart? then InTurn(multiset{}, None, NO_TOOLS) else Broken
    case BetweenTurns =>
      if e.TurnStart? then InTurn(multiset{}, None, NO_TOOLS) else if e.AgentEnd? then Finished else Broken
    case InTurn(open, None, b) =>
      (match e
       case MessageStart(m) => InTurn(open, Some(m), b)
       case ToolStart(c) => InTurn(open + multiset{c.id}, None, b.(started := b.started + [c]))
       case ToolUpdate(c, _) => if c.id in open then p else Broken
       case ToolEnd(c, output, isError) =>
         if c.id in open
         then InTurn(open - multiset{c.id}, None, b.(ended := b.ended + multiset{ResultOf(c, output, isError)}))
         else Broken
       case TurnEnd(m, results) =>
         if open == multiset{} && b.started <= m.ToolCalls() && Answers(results, b) then BetweenTurns else Broken
       case _ => Broken)
    case InTurn(open, Some(m), b) =>
      (match e
       case MessageUpdate(m') => if SameMessage(m, m') then p else Broken
       case MessageEnd(m') => if SameMessage(m, m') then InTurn(open, None, b) else Broken
       case _ => Broken)
    case Finished => Broken
    case Broken => Broken
  }

  function PhaseOf(trace: seq<Event>): Phase {
    if trace == [] then Idle else Next(PhaseOf(trace[..|trace| - 1]), trace[|trace| - 1])
  }

  lemma {:induction false} OneMore(trace: seq<Event>, e: Event)
    ensures PhaseOf(trace + [e]) == Next(PhaseOf(trace), e)
    ensures MessageEnds(trace + [e]) == MessageEnds(trace) + if e.MessageEnd? then [e.message] else []
  {
    assert (trace + [e])[..|trace|] == trace;
  }

  // ---- What the grammar means ----

  function ToolStarts(trace: seq<Event>, id: CallId): nat {
    if trace == [] then 0
    else
      var n := |trace| - 1;
      ToolStarts(trace[..n], id) + if trace[n].ToolStart? && trace[n].call.id == id then 1 else 0
  }

  function ToolEnds(trace: seq<Event>, id: CallId): nat {
    if trace == [] then 0
    else
      var n := |trace| - 1;
      ToolEnds(trace[..n], id) + if trace[n].ToolEnd? && trace[n].call.id == id then 1 else 0
  }

  function TurnStarts(trace: seq<Event>): nat {
    if trace == [] then 0
    else TurnStarts(trace[..|trace| - 1]) + if trace[|trace| - 1].TurnStart? then 1 else 0
  }

  function TurnEnds(trace: seq<Event>): nat {
    if trace == [] then 0
    else TurnEnds(trace[..|trace| - 1]) + if trace[|trace| - 1].TurnEnd? then 1 else 0
  }

  lemma {:induction false} PrefixesFollowGrammar(trace: seq<Event>, k: nat)
    requires !PhaseOf(trace).Broken? && k <= |trace|
    ensures !PhaseOf(trace[..k]).Broken?
    decreases |trace|
  {
    if k == |trace| {
      assert trace[..k] == trace;
    } else {
      var shorter := trace[..|trace| - 1];
      PrefixesFollowGrammar(shorter, k);
      assert shorter[..k] == trace[..k];
    }
  }

  function OpenOf(p: Phase, id: CallId): nat {
    if p.InTurn? then p.open[id] else 0
  }

  lemma {:induction false} OpenStep(p: Phase, e: Event, id: CallId)
    requires !Next(p, e).Broken?
    ensures OpenOf(p, id) + (if e.ToolStart? && e.call.id == id then 1 else 0)
         == OpenOf(Next(p, e), id) + (if e.ToolEnd? && e.call.id == id then 1 else 0)
  {
  }

  /** Inside a turn the automaton's counter of an id is starts minus ends; outside it is zero. */
  lemma {:induction false} OpenCounts(trace: seq<Event>, id: CallId)
    requires !PhaseOf(trace).Broken?
    ensures ToolStarts(trace, id) == ToolEnds(trace, id) + OpenOf(PhaseOf(trace), id)
  {
    if trace != [] {
      var n := |trace| - 1;
      OpenStep(PhaseOf(trace[..n]), trace[n], id);
      assert !PhaseOf(trace[..n]).Broken?;
      hide Next;
      OpenCounts(trace[..n], id);
    }
  }

  lemma {:induction false} OpenWhen(p: Phase, e: Event, id: CallId)
    requires !Next(p, e).Broken?
    ensures e.TurnStart? || e.TurnEnd? || e.AgentEnd? ==> OpenOf(p, id) == 0
    ensures (e.ToolUpdate? || e.ToolEnd?) && e.call.id == id ==> OpenOf(p, id) > 0
  {
  }

  /** Every tool execution is bracketed inside its turn: at a turn's end all started
      executions have ended, no end or update comes without an open start before it. */
  lemma {:induction false} ToolsAreBracketed(trace: seq<Event>, k: nat, id: CallId)
    requires !PhaseOf(trace).Broken? && k < |trace|
    ensures ToolEnds(trace[..k], id) <= ToolStarts(trace[..k], id)
    ensures trace[k].TurnStart? || trace[k].TurnEnd? || trace[k].AgentEnd? ==>
      ToolStarts(trace[..k], id) == ToolEnds(trace[..k], id)
    ensures (trace[k].ToolUpdate? || trace[k].ToolEnd?) && trace[k].call.id == id ==>
      ToolEnds(trace[..k], id) < ToolStarts(trace[..k], id)
  {
    hide Next, OpenOf;
    PrefixesFollowGrammar(trace, k + 1);
    PrefixesFollowGrammar(trace, k);
    assert trace[..k + 1][..k] == trace[..k];
    OpenWhen(PhaseOf(trace[..k]), trace[k], id);
    OpenCounts(trace[..k], id);
  }

  /** The calls whose execution started since the last turn started, in order. */
  function StartedCalls(trace: seq<Event>): seq<ToolCall> {
    if trace == [] || trace[|trace| - 1].TurnStart? then []
    else
      var n := |trace| - 1;
      StartedCalls(trace[..n]) + if trace[n].ToolStart? then [trace[n].call] else []
  }

  /** The results of the executions that ended since the last turn started. */
  function EndedResults(trace: seq<Event>): multiset<ToolResultMessage> {
    if trace == [] || trace[|trace| - 1].TurnStart? then multiset{}
    else
      var e := trace[|trace| - 1];
      EndedResults(trace[..|trace| - 1])
      + if e.ToolEnd? then multiset{ResultOf(e.call, e.output, e.isError)} else multiset{}
  }

  lemma {:induction false} BatchStep(p: Phase, e: Event)
    requires Next(p, e).InTurn?
    ensures if e.TurnStart? then Next(p, e).batch == NO_TOOLS else
      && p.InTurn?
      && Next(p, e).batch == Batch(
           p.batch.started + (if e.ToolStart? then [e.call] else []),
           p.batch.ended + if e.ToolEnd? then multiset{ResultOf(e.call, e.output, e.isError)} else multiset{})
  {
  }

  lemma {:induction false} BatchOf(trace: seq<Event>)
    requires PhaseOf(trace).InTurn?
    ensures PhaseOf(trace).batch == Batch(StartedCalls(trace), EndedResults(trace))
    decreases |trace|
  {
    hide Next, ResultOf;
    var n := |trace| - 1;
    BatchStep(PhaseOf(trace[..n]), trace[n]);
    if !trace[n].TurnStart? {
      BatchOf(trace[..n]);
    }
  }

  lemma {:induction false} TurnMayEnd(p: Phase, m: AssistantMessage, results: seq<ToolResultMessage>)
    requires !Next(p, TurnEnd(m, results)).Broken?
    ensures p.InTurn? && p.batch.started <= m.ToolCalls() && Answers(results, p.batch)
  {
  }

  /** A turn ends with one result for each tool it started, in the order of the calls of its message: these results are
      what the executions ended with, no more and no fewer. */
  lemma {:induction false} TurnEndsWithItsResults(trace: seq<Event>, k: nat)
    requires !PhaseOf(trace).Broken? && k < |trace| && trace[k].TurnEnd?
    ensures StartedCalls(trace[..k]) <= trace[k].assistant.ToolCalls()
    ensures |trace[k].toolResults| == |StartedCalls(trace[..k])|
    ensures forall i | 0 <= i < |trace[k].toolResults| ::
              var result, call := trace[k].toolResults[i], StartedCalls(trace[..k])[i];
              result.callId == call.id && result.name == call.name
    ensures multiset(trace[k].toolResults) == EndedResults(trace[..k])
  {
    hide Next, CallsOf;
    PrefixesFollowGrammar(trace, k + 1);
    PrefixesFollowGrammar(trace, k);
    assert trace[..k + 1][..k] == trace[..k];
    TurnMayEnd(PhaseOf(trace[..k]), trace[k].assistant, trace[k].toolResults);
    BatchOf(trace[..k]);
  }

  /** The start of the message that is open after the first `k` events: only its updates follow it. */
  predicate OpenSince(trace: seq<Event>, i: nat, k: nat)
    requires k <= |trace|
  {
    i < k && trace[i].MessageStart? && forall j | i < j < k :: trace[j].MessageUpdate?
  }

  lemma {:induction false} MessageStep(p: Phase, e: Event)
    requires Next(p, e).InTurn? && Next(p, e).message.Some?
    ensures if e.MessageStart? then Next(p, e).message == Some(e.message)
            else e.MessageUpdate? && p.InTurn? && p.message == Next(p, e).message
  {
  }

  lemma {:induction false} MessageOpen(trace: seq<Event>)
    requires PhaseOf(trace).InTurn? && PhaseOf(trace).message.Some?
    ensures exists i: nat :: OpenSince(trace, i, |trace|) && PhaseOf(trace).message == Some(trace[i].message)
    decreases |trace|
  {
    var n := |trace| - 1;
    var shorter := trace[..n];
    MessageStep(PhaseOf(shorter), trace[n]);
    hide Next;
    if trace[n].MessageUpdate? {
      MessageOpen(shorter);
      var i: nat :| OpenSince(shorter, i, n) && PhaseOf(shorter).message == Some(shorter[i].message);
      assert trace[i] == shorter[i];
      assert OpenSince(trace, i, |trace|);
    } else {
      assert OpenSince(trace, n, |trace|);
    }
  }

  /** Every message is bracketed: its updates and its end follow its start, with only its updates in between, and bear
      the message that started, unless it is an assistant message, which may have changed. */
  lemma {:induction false} MessagesAreBracketed(trace: seq<Event>, k: nat)
    requires !PhaseOf(trace).Broken? && k < |trace| && (trace[k].MessageUpdate? || trace[k].MessageEnd?)
    ensures exists i: nat :: OpenSince(trace, i, k)
              && (trace[i].message == trace[k].message || (trace[i].message.FromAssistant? && trace[k].message.FromAssistant?))
  {
    hide Next, PhaseOf;
    var before := trace[..k];
    PrefixesFollowGrammar(trace, k + 1);
    assert trace[..k + 1] == before + [trace[k]];
    OneMore(before, trace[k]);
    MessageGoesOn(PhaseOf(before), trace[k]);
    MessageOpen(before);
    var i: nat :| OpenSince(before, i, k) && PhaseOf(before).message == Some(before[i].message);
    assert OpenSince(trace, i, k);
  }

  lemma {:induction false} MessageGoesOn(p: Phase, e: Event)
    requires !Next(p, e).Broken? && (e.MessageUpdate? || e.MessageEnd?)
    ensures p.InTurn? && p.message.Some?
    ensures p.message.value == e.message || (p.message.value.FromAssistant? && e.message.FromAssistant?)
  {
  }

  lemma {:induction false} OpenThen(p: Phase, e: Event, next: Event)
    requires !Next(Next(p, e), next).Broken? && (e.MessageStart? || e.MessageUpdate?)
    ensures next.MessageUpdate? || next.MessageEnd?
  {
  }

  /** Nothing else comes while a message is open. */
  lemma {:induction false} OpenMessageGoesOn(trace: seq<Event>, k: nat)
    requires !PhaseOf(trace).Broken? && k + 1 < |trace| && (trace[k].MessageStart? || trace[k].MessageUpdate?)
    ensures trace[k + 1].MessageUpdate? || trace[k + 1].MessageEnd?
  {
    hide Next;
    PrefixesFollowGrammar(trace, k + 2);
    assert trace[..k + 2][..k + 1] == trace[..k + 1] && trace[..k + 1][..k] == trace[..k];
    OpenThen(PhaseOf(trace[..k]), trace[k], trace[k + 1]);
  }

  lemma {:induction false} TurnsAlternate(trace: seq<Event>)
    requires !PhaseOf(trace).Broken?
    ensures TurnStarts(trace) == TurnEnds(trace) + if PhaseOf(trace).InTurn? then 1 else 0
    ensures PhaseOf(trace).BetweenTurns? || PhaseOf(trace).Finished? ==> TurnEnds(trace) > 0
    ensures PhaseOf(trace).Idle? <==> trace == []
    decreases |trace|
  {
    if trace != [] {
      TurnsAlternate(trace[..|trace| - 1]);
    }
  }

  /** A finished run is agent_start, at least one bracketed turn, then agent_end and nothing else. */
  lemma {:induction false} FinishedShape(trace: seq<Event>)
    requires PhaseOf(trace).Finished?
    ensures |trace| >= 4 && trace[0].AgentStart? && trace[|trace| - 1].AgentEnd?
    ensures forall k | 0 < k < |trace| - 1 :: !trace[k].AgentStart? && !trace[k].AgentEnd?
    ensures TurnStarts(trace) == TurnEnds(trace) > 0
  {
    var n := |trace| - 1;
    TurnsAlternate(trace);
    TurnsAlternate(trace[..n]);
    OnlyFirstStarts(trace[..n]);
    assert forall k | 0 <= k < n :: trace[..n][k] == trace[k];
  }

  lemma {:induction false} OnlyFirstStarts(trace: seq<Event>)
    requires !PhaseOf(trace).Broken? && !PhaseOf(trace).Finished?
    ensures trace != [] ==> trace[0].AgentStart?
    ensures forall k | 0 < k < |trace| :: !trace[k].AgentStart? && !trace[k].AgentEnd?
    decreases |trace|
  {
    if trace != [] {
      var shorter := trace[..|trace| - 1];
      OnlyFirstStarts(shorter);
      TurnsAlternate(shorter);
      assert forall k | 0 <= k < |shorter| :: shorter[k] == trace[k];
    }
  }

  // ---- The reducer ----

  /** The part of the agent's state that events drive. */
  datatype View = View(
    messages: seq<Message>, streaming: Option<Message>, pendingToolCalls: set<CallId>, errorMessage: Option<string>)

  function Reduce(v: View, e: Event): View {
    match e
    case MessageStart(m) => v.(streaming := Some(m))
    case MessageUpdate(m) => v.(streaming := Some(m))
    case MessageEnd(m) => v.(streaming := None, messages := v.messages + [m])
    case ToolStart(c) => v.(pendingToolCalls := v.pendingToolCalls + {c.id})
    case ToolEnd(c, _, _) => v.(pendingToolCalls := v.pendingToolCalls - {c.id})
    case TurnEnd(m, _) => if m.error.Some? && m.error.value != "" then v.(errorMessage := m.error) else v
    case AgentEnd(_) => v.(streaming := None)
    case _ => v
  }

  function ReduceAll(v: View, trace: seq<Event>): View {
    if trace == [] then v else Reduce(ReduceAll(v, trace[..|trace| - 1]), trace[|trace| - 1])
  }

  lemma {:induction false} ReduceOneMore(v: View, trace: seq<Event>, e: Event)
    ensures ReduceAll(v, trace + [e]) == Reduce(ReduceAll(v, trace), e)
  {
    hide Reduce;
    assert (trace + [e])[..|trace|] == trace;
  }

  /** The transcript grows by exactly the delivered messages, whatever the stream. */
  lemma {:induction false} TranscriptIsMessageEnds(v: View, trace: seq<Event>)
    ensures ReduceAll(v, trace).messages == v.messages + MessageEnds(trace)
  {
    if trace != [] {
      TranscriptIsMessageEnds(v, trace[..|trace| - 1]);
    }
  }

  /** On a grammatical stream a message is shown as streaming exactly while one is open, and a call
      id is shown as pending only while an execution with that id is open: none between turns. */
  lemma {:induction false} ViewFollowsPhase(v: View, trace: seq<Event>)
    requires !PhaseOf(trace).Broken?
    requires v.streaming.None? && v.pendingToolCalls == {}
    ensures var s := ReduceAll(v, trace);
            && (s.streaming.Some? <==> PhaseOf(trace).InTurn? && PhaseOf(trace).message.Some?)
            && (forall id | id in s.pendingToolCalls :: PhaseOf(trace).InTurn? && id in PhaseOf(trace).open)
    decreases |trace|
  {
    if trace != [] {
      ViewFollowsPhase(v, trace[..|trace| - 1]);
    }
  }

  /** While a message is open, what is shown as streaming is the message of the last event. */
  lemma {:induction false} StreamingIsLatest(v: View, trace: seq<Event>)
    requires PhaseOf(trace).InTurn? && PhaseOf(trace).message.Some?
    ensures var e := trace[|trace| - 1];
      (e.MessageStart? || e.MessageUpdate?) && ReduceAll(v, trace).streaming == Some(e.message)
  {
  }

  /** The event ends a turn and reports an error. */
  predicate Reports(e: Event) { e.TurnEnd? && e.assistant.error.Some? && e.assistant.error.value != "" }

  /** The error shown is the last that a turn's end reported, if any did. */
  lemma {:induction false} ErrorIsLastReported(v: View, trace: seq<Event>, k: nat)
    requires k <= |trace| && (k > 0 ==> Reports(trace[k - 1])) && forall j | k <= j < |trace| :: !Reports(trace[j])
    ensures ReduceAll(v, trace).errorMessage == if k > 0 then trace[k - 1].assistant.error else v.errorMessage
    decreases |trace|
  {
    if k < |trace| {
      ErrorIsLastReported(v, trace[..|trace| - 1], k);
    }
  }

  ghost predicate NoIdReopened(trace: seq<Event>) {
    forall k | 0 <= k < |trace| && trace[k].ToolStart? ::
      ToolStarts(trace[..k], trace[k].call.id) == ToolEnds(trace[..k], trace[k].call.id)
  }

  lemma {:induction false} PrefixReopensNoId(trace: seq<Event>, n: nat)
    requires NoIdReopened(trace) && n <= |trace|
    ensures NoIdReopened(trace[..n])
  {
    hide PhaseOf, ReduceAll, ToolStarts, ToolEnds;
    var shorter := trace[..n];
    forall k | 0 <= k < n && shorter[k].ToolStart?
      ensures ToolStarts(shorter[..k], shorter[k].call.id) == ToolEnds(shorter[..k], shorter[k].call.id)
    {
      assert shorter[..k] == trace[..k];
    }
  }

  /** When no id is started again while it is open, the pending set is exactly the open executions. */
  lemma {:induction false} PendingIsExactlyOpen(v: View, trace: seq<Event>, id: CallId)
    requires !PhaseOf(trace).Broken? && NoIdReopened(trace)
    requires v.pendingToolCalls == {}
    ensures ToolStarts(trace, id) <= ToolEnds(trace, id) + 1
    ensures id in ReduceAll(v, trace).pendingToolCalls <==> ToolEnds(trace, id) < ToolStarts(trace, id)
    decreases |trace|
  {
    if trace != [] {
      var n := |trace| - 1;
      var shorter := trace[..n];
      PrefixReopensNoId(trace, n);
      PrefixesFollowGrammar(trace, n);
      hide Next, PhaseOf;
      PendingIsExactlyOpen(v, shorter, id);
      OpenCounts(shorter, id);
      OpenCounts(trace, id);
      assert trace[n].ToolStart? ==>
        ToolStarts(shorter, trace[n].call.id) == ToolEnds(shorter, trace[n].call.id);
      hide NoIdReopened;
    }
  }
}
