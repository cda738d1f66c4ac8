# Verified models of the agent runtime

Dafny models of eight parts of the repository, each proved to have the properties its code and its
documentation promise. Each module's opening comment says what it models.

* **Agent run loop** (`AgentTypes`, `AgentEvents`, `AgentTools`, `AgentCalls`, `AgentTraces`, `AgentQueue`,
  `AgentRecords`, `AgentDeliveries`, `AgentLoop`). The nested loop that drives turns, tool batches and message queues,
  with the `Agent` around it. Models, tools, hooks and the user's interventions are arbitrary inputs; concurrent tools
  complete in an arbitrary schedule. Proved of every run: the event stream fits a grammar, every turn ends with exactly
  the results of the tools it started, a call that is barred never runs, the three views of the conversation agree, each
  turn injects exactly what the queues give it in their modes, no queued message is lost or doubled, and a parallel
  batch has the results of the sequential one. `AgentRecords` says what a run must come to; `AgentCalls`, `AgentTraces`
  and `AgentDeliveries` say it again in terms of single calls, of what is shown, and of what was queued.
* **Session leases** (`LeaseProtocol`, `LeaseInvariant`, `LeaseRuns`, `LeaseOutcomes`, `LeaseChunks`, `LeaseLinks`,
  `LeaseClosing`, `LeaseClient`, `ClientStates`, `Handshakes`). One event is one API call, inbound message or close
  together with the continuations it releases. `LeaseProtocol` says what each event does to one session; `LeaseRuns`
  proves what holds over every run, and `LeaseOutcomes` what each event of a run comes to for everyone who holds or
  waits; `LeaseClient` is the client with its separate maps, pending requests and suspended calls, and each of its
  methods is proved to be an event of that protocol for its session, and none for any other. `LeaseChunks` is about
  messages that arrive together, and `Handshakes` about the connection and callbacks that change it.
* **Expressions** (`MathSyntax`, `MathGrammar`, `MathParser`, `MathStreams`, `MathChains`, `MathReading`, `MathReparse`,
  `MathRoundTrip`, `MathSpelling`, `MathNotation`, `MathProgress`). The cursor parser, the printer and the check for
  unfinished input, on tokens. The printer never parenthesises a power, a factorial or a percentage, so the round trip
  fails on some trees; the trees on which it holds are given exactly. What the printer never writes is fixed by
  `MathSpelling`, the spellings that read alike, and `MathNotation`, the other forms.
* **Catalog publication** (`CatalogPublication`, `CatalogRuns`, `CatalogEffects`, `CatalogModels`). Refreshes that race
  with supersession, store writes and in-memory updates, at the granularity of the `await`s: a store mutation starts,
  lands, and is resumed after in separate steps. `CatalogModels` is the registry, each of its methods a step of the
  protocol.
* **Plan mode** (`PlanSyntax`, `PlanVerdicts`, `PlanSplitting`, `PlanForms`, `PlanClassifier`, `PlanMode`). The one-pass
  scanner of command lines refines splitting first and checking then; where it splits, and what it checks, is proved of
  literal lines; the notices and the tool gate over whole sessions.
* **Gateway death** (`GatewayTurns`, `GatewayChecks`, `GatewayCalls`, `GatewayAnswers`). Workers and callers against the
  reader thread, one step per atomic action.
* **Proxy stream** (`ProxyStream`, `ProxyMessages`). Line decoding that does not depend on how chunks are cut, the
  message rebuilt, and what the stream's consumers get.
* **Transcript packing** (`TranscriptPacking`). The greedy loop is bounded, keeps the order and is optimal.

Where code and documentation or intention part, the code is modelled, the failing case shown and the exact condition
proved:

* Printing and reading back regroups `-(2^3)`, `(2^3)^4`, `(2^3)!`, `-(3!)` and `√(4!)` (`UnfaithfulTrees`,
  `RoundTrip`).
* A command that writes an operator, such as `\times`, is read as a function's name where an operand is due
  (`OperatorReadAsFunction`); but for that, all spellings read alike (`AnySpelling`).
* A redirection without its target takes a following ampersand or newline for its own (`DanglingTakes`,
  `TwoAmpersands`); but for that, every operator separates (`OperatorsSplit`).
* The comment before the `context` handler of plan mode promises exactly one notice; after a change of mode within a
  turn there is one only if the history still holds an older notice of that mode (`OnContext`, `ChangeWithinTurn`,
  `EnteredUnannounced`).
* A restored catalog can lag behind the store (`RestoreMayLag`): exactly if the last mutation that landed since the read
  left other models of the provider (`RestoreAgreesIff`, `RestoreEqualsIff`); for a refresh that awaits
  its own publications, exactly if the one under way at the read did (`AwaitingRestoreAgreesIff`); never with no
  publication in the chain at the read and none queued beside the restore (`QuietRestoreAgrees`). A publication that
  succeeds after storing what it sets never lags (`PublishedAgrees`).
* Two overlapping prompts can both pass the gateway's check for a turn in flight (`ReplacedTurnIsLost`), and only so is
  a turn replaced (`ReplacedIffOverlapped`); a waiting turn is woken exactly if it was not replaced (`NoneLeftWaiting`),
  and with one prompt at a time none is (`DeathWakesTheTurn`).
* The connection handles every message of a chunk before a call that one of them resolved goes on. If an attach reply is
  followed in its chunk by a message that ends the connection, the waiting call gets a lease nobody counts
  (`AttachAndCloseInOneChunk`); a resumed call's lease is counted exactly if its session's generation has not moved on
  since its token was reserved (`ResumedLeaseIsAccounted`).
* A listener that connects anew when its connection ends gets a connection that the rest of the old chunk, if there is
  any, fails at once (`ConnectAnewWithinChunk`).
* The error a gateway's death leaves for its pending calls is never raised: they find their response lost
  (`OnlyOwnResponses`).
* A proxied stream that ends without the event that completes it never gets its result, and a last line without a line
  feed is lost (`UnfinishedLineIsLost`); it gets one exactly if it fails or a complete line completes it (`ResultIff`).
* A stream that starts twice leaves a stale message in the loop's context (`NothingStale`); the stream contract allows
  one start, which the run theorems assume.

Assumed of the environment, as the code's own interfaces state it: callbacks, hooks and listeners do not throw; a
session the server has removed is never attached, created or reported attached again (why this is needed is
`AttachAfterRemovalBreaksTheCount`); a created session is none that still waits for cleanup; the reply to a session's
command names that session; the model store is written by this registry only.

Assumed beyond what the code ensures: the calls a message lets resume do so before the next message is handled, which
holds for messages that come in chunks of their own (what happens otherwise is `LeaseChunks`); and listeners do not
re-enter the client while it handles a message (the connection's own callbacks may, in `Handshakes`).

Check the whole project with `dafny verify dfyconfig.toml`.

## Model

| member | source | states |
|---|---|---|
| AgentEvents.PrefixesFollowGrammar | pi/packages/agent/src/agent-loop.ts:110-117 | every prefix of an event stream that fits the grammar fits it too, so the grammar speaks of every moment of a run |
| AgentEvents.OpenCounts | pi/packages/agent/src/agent-loop.ts:431-561 | inside a turn the open executions of a call id are its starts minus its ends; outside a turn there are none |
| AgentEvents.ToolsAreBracketed | pi/packages/agent/src/agent-loop.ts:442-555 | starts are never outnumbered by ends, and at each turn's end every started execution of the turn has ended |
| AgentEvents.TurnEndsWithItsResults | pi/packages/agent/src/agent-loop.ts:431-555 | on a grammatical stream a turn ends with one result for each tool it started, in the order of its message's calls: as a multiset these are the results its executions ended with, no more and no fewer |
| AgentEvents.MessagesAreBracketed | pi/packages/agent/src/agent-loop.ts:110-370 | every update and end of a message follows that message's start, with only its updates in between, and carries the message that started, unless it is an assistant message, which may have changed |
| AgentEvents.StreamingIsLatest | pi/packages/agent/src/agent.ts:544-583 | what is shown as streaming is the message of the last start or update, as long as it has not ended |
| AgentEvents.ErrorIsLastReported | pi/packages/agent/src/agent.ts:544-583 | the error shown after a stream of events is that of the last turn's message that carries one, or the one from before |
| AgentEvents.TurnsAlternate | pi/packages/agent/src/agent-loop.ts:168-270 | turn starts exceed turn ends by one inside a turn and equal them outside; a run between turns or over has ended at least one |
| AgentEvents.FinishedShape | pi/packages/agent/src/agent-loop.ts:110-272 | a finished run is agent_start first, agent_end last and neither between, with at least one turn and every turn ended |
| AgentEvents.OnlyFirstStarts | pi/packages/agent/src/agent-loop.ts:110-272 | agent_start occurs only first and agent_end only last |
| AgentEvents.TranscriptIsMessageEnds | pi/packages/agent/src/agent.ts:544-583 | whatever the stream, the transcript grows by exactly the messages of its message_end events, in order |
| AgentEvents.ViewFollowsPhase | pi/packages/agent/src/agent.ts:544-583 | on a grammatical stream a message is shown as streaming exactly while one is open, and a call is pending only while an execution of it is open |
| AgentEvents.PendingIsExactlyOpen | pi/packages/agent/src/agent.ts:544-583 | if no id is started again while it is open, the pending set is exactly the open executions |
| AgentTools.ParallelRefinesSequential | pi/packages/agent/src/agent-loop.ts:431-561 | with no abort, for any tools and hooks as functions of their call, the parallel batch has the results of the sequential one, in source order, and the same terminate flag |
| AgentTools.SequentialAnswersPrefix | pi/packages/agent/src/agent-loop.ts:431-485 | aborted or not, the results of a sequential batch answer a non-empty prefix of its calls, in order |
| AgentTools.ParallelAnswersPrefix | pi/packages/agent/src/agent-loop.ts:487-561 | the same for a parallel batch |
| AgentTools.ImmediateTerminates | pi/packages/agent/src/agent-loop.ts:607-676 | a call answered without running is an error and ends the batch only through a hook that asks for it |
| AgentCalls.BarredNeverRuns | pi/packages/agent/src/agent-loop.ts:607-676 | a call whose tool is unknown, whose arguments are invalid, whose hook throws or blocks, or that finds the signal raised, never runs: whatever its tool and its after hook would do, outcome and events are the same, and the outcome is an error with the one text that tells why |
| AgentCalls.OthersRun | pi/packages/agent/src/agent-loop.ts:441-482 | every other call runs: its outcome is the finalized one, and its partial results are among its events |
| AgentCalls.HookReplaces | pi/packages/agent/src/agent-loop.ts:677-772 | a finalized call has what its tool returned or threw, with exactly the parts replaced that the after hook gives; a hook that throws makes it that error |
| AgentCalls.TurnResult | pi/packages/agent/src/agent-loop.ts:215-243 | in every completed turn of a run each result is, for its call: the truncation error, or the barred call's error, or the finalized outcome of its tool, or in a parallel batch the abort error if the signal is raised before the tool starts |
| AgentCalls.BarredInTurn | pi/packages/agent/src/agent-loop.ts:607-676 | a barred call of a completed turn, in a sequential or a parallel batch, has the error that tells why as its result |
| AgentCalls.OneCallGoesOn | pi/packages/agent/src/agent-loop.ts:589-591 | after a completed turn more turns are wanted if and only if it has calls and was cut off, or one answered call does not ask to end, by its blocking hook, its tool's output or its after hook |
| AgentTraces.StartedIsShown | pi/packages/agent/src/agent-loop.ts:299-357 | a response that starts once is shown as its start, each later update and the final message, and nothing that comes before the start or after the end |
| AgentTraces.UnstartedIsShown | pi/packages/agent/src/agent-loop.ts:299-370 | a response that never starts is shown as the start and end of its final message |
| AgentTraces.SequentialNeverTwo | pi/packages/agent/src/agent-loop.ts:431-485 | at no moment of a sequential batch are two executions open |
| AgentTraces.ExecutesUntilSettled | pi/packages/agent/src/agent-loop.ts:487-555 | under any schedule a started tool of a parallel batch executes exactly until it settles, and its slot never holds another call or outcome than its own |
| AgentTraces.ReportsUntilSettled | pi/packages/agent/src/agent-loop.ts:520-541 | a partial result is emitted exactly if the tool that reports it has not settled |
| AgentTraces.DoneOnceFinished | pi/packages/agent/src/agent-loop.ts:520-541 | a call of a parallel batch is done exactly if its tool has settled and its hook after that |
| AgentDeliveries.QueuedInOrder | pi/packages/agent/src/agent.ts:283-306 | as long as nothing clears a queue, it holds what it held and then every message queued for it, in order |
| AgentDeliveries.QueuedSinceCleared | pi/packages/agent/src/agent.ts:283-306 | after a clear it holds exactly what was queued since, in order |
| AgentDeliveries.ModeLastSet | pi/packages/agent/src/agent.ts:283-306 | a queue's mode is the one it was last set to, or the one it had |
| AgentDeliveries.GivenInOrder | pi/packages/agent/src/agent-loop.ts:156-266 | over a whole run in which nothing clears a queue: what it held at the beginning and every message queued for it since is what the turns were given from it, then what the next turn holds of it and what still waits, each once and in order |
| AgentDeliveries.NothingLeftBehind | pi/packages/agent/src/agent-loop.ts:191-196 | a turn that injects nothing leaves no steering message waiting, unless the run skipped its first poll |
| AgentDeliveries.WentOnBecause | pi/packages/agent/src/agent-loop.ts:176-270 | a further turn came only because calls wanted one, or a message was steered in or followed up, and the turn before was neither broken nor told to stop |
| AgentDeliveries.EndedBecause | pi/packages/agent/src/agent-loop.ts:215-272 | a finished run had no reason left to go on; it leaves no follow-up waiting unless its last turn was broken or told to stop, and then its queues are as that turn found them |
| AgentQueue.RemoveMore | pi/packages/agent/src/agent.ts:141-158 | taking messages off a queue extends what has left it by exactly those messages, and what was delivered by them if they were delivered |
| AgentQueue.PendingMessageQueue.Enqueue | pi/packages/agent/src/agent.ts:133-135 | the message waits last; what was delivered is unchanged; every message ever enqueued has left once or waits, in order |
| AgentQueue.PendingMessageQueue.Drain | pi/packages/agent/src/agent.ts:141-154 | hands over all waiting messages, or the first in one-at-a-time mode, and delivers exactly those |
| AgentQueue.PendingMessageQueue.Clear | pi/packages/agent/src/agent.ts:156-158 | drops what waits and delivers nothing |
| AgentRecords.NothingStale | pi/packages/agent/src/agent-loop.ts:299-370 | streaming leaves nothing but the final message in the context exactly when the stream starts at most once before it ends |
| AgentRecords.SlotForEachStart | pi/packages/agent/src/agent-loop.ts:299-357 | a stream fills one slot of the context for each of its starts, up to its end |
| AgentRecords.TurnAnswersCalls | pi/packages/agent/src/agent-loop.ts:215-243 | a completed turn's results answer its calls in order: all if the message was cut off, a non-empty prefix otherwise, none after a failed or aborted response |
| AgentRecords.UnabortedResults | pi/packages/agent/src/agent-loop.ts:409-561 | as long as nothing aborts a run, each completed turn has one result for each call of its message: those of running the calls one after the other with no abort, whichever way the batch ran, and it goes on unless they all end the batch |
| AgentRecords.OneEachTurn | pi/packages/agent/src/agent-loop.ts:191-196 | a queue that gives one message at a time when the run begins, and that nobody sets to another mode, gives no turn more than one message |
| AgentRecords.HeldNext | pi/packages/agent/src/agent-loop.ts:176-266 | the next turn injects what the polls since the last one gave, and only if that was nothing, what steering is queued by the time it has been prepared |
| AgentRecords.FirstSkipped | pi/packages/agent/src/agent.ts:371-382 | a run that skips its first poll injects nothing in its first turn |
| AgentRecords.NoneReplaced | pi/packages/agent/src/agent-loop.ts:176-190 | while no turn comes with a context of its own, the loop's context builds on the transcript from before the run |
| AgentRecords.LastReplaced | pi/packages/agent/src/agent-loop.ts:176-190 | otherwise it builds on the last such context, and the new messages count from the turn it came with |
| AgentLoop.Agent.ProcessEvents | pi/packages/agent/src/agent.ts:544-583 | the view after an event is the reducer's, the phase the grammar's, and the trace grows by the event |
| AgentLoop.Agent.BeginRun | pi/packages/agent/src/agent.ts:486-500 | a run starts from the present transcript with an empty trace, nothing streaming, nothing pending and no abort |
| AgentLoop.Agent.FinishRun | pi/packages/agent/src/agent.ts:529-535 | run state is cleared: not active, not streaming, nothing pending; the transcript stays |
| AgentLoop.Agent.RunWithLifecycle | pi/packages/agent/src/agent.ts:486-509 | each turn injects exactly what the queues, as the script's operations and the polls so far leave them, give it; each queue has delivered what the turns injected from it and then what the turn under way holds, whether or not the run has finished; the context is the transcript, or the last context that replaced it, and the new messages since; every turn followed one that let it, and its results are those `TurnResult` fixes; a finished run leaves the agent idle, nothing pending and neither queue giving anything unless it was told to stop, and its new messages are the message_end messages, what the transcript grew by and what the closing agent_end carries |
| AgentLoop.Agent.Prompt | pi/packages/agent/src/agent.ts:350-359 | refused, with nothing changed, exactly while a run is active; otherwise a run with the prompts, with all that a run promises |
| AgentLoop.Agent.Continue | pi/packages/agent/src/agent.ts:361-388 | refused exactly while active, without messages, or after an assistant message with both queues empty; after an assistant message the prompts are what the steering queue, or if it is empty the follow-up queue, gives in its mode, and the run goes on from the queues that leaves; after steering the first turn injects nothing more; otherwise all that a run promises |
| AgentLoop.Agent.Apply | pi/packages/agent/src/agent.ts:283-306 | queueing, clearing and setting modes while a run works change the queues as specified, deliver nothing and keep every queue's account |
| AgentLoop.Loop.PollSteering | pi/packages/agent/src/agent.ts:475-482 | gives what the steering queue gives in its mode, and nothing, with the queue untouched, at the one initial poll that `continue` skips |
| AgentLoop.Loop.InjectPending | pi/packages/agent/src/agent-loop.ts:201-209 | every pending message enters the events, the context, the new messages and the transcript, in order; none stays pending |
| AgentLoop.Loop.ConsumeStream | pi/packages/agent/src/agent-loop.ts:299-357 | the message slots of the context after a stream are those its starts leave, and its events those of the stream's trace |
| AgentLoop.Loop.StreamAssistantResponse | pi/packages/agent/src/agent-loop.ts:279-370 | the final message enters the transcript once; the context grows by it after whatever a stream that starts twice leaves; its events are the response's trace; with at most one start they stay grammatical |
| AgentLoop.Loop.FailToolCallsFromTruncatedMessage | pi/packages/agent/src/agent-loop.ts:379-407 | every call of a cut-off message is started, ended and answered, in order, by an error, and each answer enters the transcript |
| AgentLoop.Loop.ExecuteOne | pi/packages/agent/src/agent-loop.ts:441-482 | the events are the call's start, its partial results if it runs, and its end with the outcome; the outcome is the specified one, which `BarredNeverRuns` and `OthersRun` fix, and counts once among the turn's results |
| AgentLoop.Loop.ExecuteToolCallsSequential | pi/packages/agent/src/agent-loop.ts:431-485 | the batch's results are those of the sequential specification; its events are, call after call, start, partial results, end and the result's message, so each call is over before the next starts |
| AgentLoop.Loop.PrepareOne | pi/packages/agent/src/agent-loop.ts:496-543 | a prepared call has started, and is either answered at once and ended, or left open to run |
| AgentLoop.Loop.PrepareParallel | pi/packages/agent/src/agent-loop.ts:496-551 | the preparation loop leaves the specified entries, stopping after a call that finds the signal raised |
| AgentLoop.Loop.StartOne | pi/packages/agent/src/agent-loop.ts:520-541 | a tool not yet started when the signal is raised is aborted, otherwise its outcome is its own |
| AgentLoop.Loop.StartParallel | pi/packages/agent/src/agent-loop.ts:487-551 | the entries start in order |
| AgentLoop.Loop.CompleteParallel | pi/packages/agent/src/agent-loop.ts:487-555 | for any schedule of completions and updates, the open executions are those of the slots not done, the results that ended are those of the slots done, every slot stays on the way to its specified outcome, in source order, and slots and events are those the schedule leads to |
| AgentLoop.Loop.ExecuteToolCalls | pi/packages/agent/src/agent-loop.ts:409-429 | the batch runs sequentially if so configured or asked for by one of its tools, else in parallel; when done it has the results and the terminate flag specified for that mode, exactly its answered calls were started, in order, and exactly their results ended; one after the other, its events are those of the sequential trace |
| AgentLoop.Loop.RunTools | pi/packages/agent/src/agent-loop.ts:222-241 | a turn's tool results enter every view once each, in order, and are those its calls come to; more turns are wanted unless the batch terminates; calls run one after the other leave their trace |
| AgentLoop.Loop.Respond | pi/packages/agent/src/agent-loop.ts:201-213 | the new messages and every other view grow by the pending messages and then the response |
| AgentLoop.Loop.FinishTurn | pi/packages/agent/src/agent-loop.ts:243-257 | the turn is recorded with what the queues gave it, its results and whether the run was told to stop |
| AgentLoop.Loop.RunTurn | pi/packages/agent/src/agent-loop.ts:199-257 | one turn keeps the account of all three views, and the log grows by exactly what the turn did; a turn that cannot end leaves its injected messages accounted for |
| AgentLoop.Loop.PollForTurn | pi/packages/agent/src/agent-loop.ts:191-196 | what is pending afterwards is what was, or, if nothing was, what the steering queue gives in its mode after the operations; nothing at a poll that is to be skipped |
| AgentLoop.Loop.PollFollowUps | pi/packages/agent/src/agent-loop.ts:260-266 | what is pending afterwards is what the follow-up queue gives in its mode after the operations |
| AgentLoop.Loop.PrepareNextTurn | pi/packages/agent/src/agent-loop.ts:176-190 | a replacing context is what the later turns add to, and the new messages count from there; without one the context and what it builds on stay |
| AgentLoop.Loop.BeginNextTurn | pi/packages/agent/src/agent-loop.ts:176-198 | a further turn starts only after one that lets it; it holds what the specification of the queues says, and its context builds on what it should |
| AgentLoop.Loop.Iterate | pi/packages/agent/src/agent-loop.ts:175-258 | one iteration of the inner loop keeps the account, the context and the queues as specified, or ends the run complete |
| AgentLoop.Loop.RunLoop | pi/packages/agent/src/agent-loop.ts:156-273 | a finished run is complete: views agree, the context builds on what the turns begun make it, every turn injected what the queues gave, nothing is pending, agent_end carries the new messages, and it stopped because it was told to, or because there were no more calls and neither queue gave anything; an unfinished one has all of this for its turns so far and for the turn under way |
| AgentLoop.Loop.RunAgentLoop | pi/packages/agent/src/agent-loop.ts:96-144 | the same from the prompts on; new messages are the prompts and what the turns logged |
| AgentLoop.Loop.OneOutstanding | pi/packages/agent/src/agent-loop.ts:191-196 | in an unfinished run too, of a queue that gives one message at a time no more than one is pending or injected in the turn under way |
| MathParser.Parser.ParseFull | vertus/apps/vertus-bar/MathEval.swift:268-276 | the cursor parser accepts exactly what the grammar function accepts, with the same tree; one trailing `=` is allowed |
| MathParser.Parser.ParseExpr | vertus/apps/vertus-bar/MathEval.swift:278-288 | sums, left-associative: the grammar's tree and rest |
| MathParser.Parser.ParseTerm | vertus/apps/vertus-bar/MathEval.swift:290-309 | products, written or implicit, left-associative: the grammar's tree and rest |
| MathParser.Parser.ParseFactor | vertus/apps/vertus-bar/MathEval.swift:311-317 | powers, right-associative: the grammar's tree and rest |
| MathParser.Parser.ParsePostfix | vertus/apps/vertus-bar/MathEval.swift:319-327 | postfix operators: the grammar's tree and rest |
| MathParser.Parser.ParseUnary | vertus/apps/vertus-bar/MathEval.swift:329-333 | prefix signs: the grammar's tree and rest |
| MathParser.Parser.ParseAtom | vertus/apps/vertus-bar/MathEval.swift:335-359 | numbers, groups, names and commands: the grammar's tree and rest |
| MathParser.Parser.ParseName | vertus/apps/vertus-bar/MathEval.swift:361-385 | constants, roots and functions by name: the grammar's tree and rest |
| MathParser.Parser.ParseLatex | vertus/apps/vertus-bar/MathEval.swift:387-403 | commands, with `\frac` and `\sqrt`: the grammar's tree and rest |
| MathParser.Parser.ParseFunctionCall | vertus/apps/vertus-bar/MathEval.swift:405-414 | a function needs a group: the grammar's tree and rest |
| MathParser.Parser.ParseBracedGroup | vertus/apps/vertus-bar/MathEval.swift:416-422 | a braced group: the grammar's tree and rest |
| MathParser.Parser.ParseCommaArgs | vertus/apps/vertus-bar/MathEval.swift:424-437 | any number of arguments: the grammar's trees and rest |
| MathRoundTrip.RoundTrip | vertus/apps/vertus-bar/MathEval.swift:268-511 | parsing what is printed of a tree gives the tree, with `frac` read as a division, if and only if no operand is one the printer should have parenthesised, no constant is tau and no call has a reserved name |
| MathRoundTrip.PrintedParsesAsReparse | vertus/apps/vertus-bar/MathEval.swift:268-511 | what the parser makes of any readable printed tree, faithful or not: the tree `Reparse` computes from its chain |
| MathReparse.ReparseIffWellNested | vertus/apps/vertus-bar/MathEval.swift:311-333 | what is read back equals the tree exactly on the well-nested trees |
| MathReparse.ReparseKeepsSize | vertus/apps/vertus-bar/MathEval.swift:268-511 | reading back never loses or adds an operator, even where it regroups them |
| MathReading.FactorReadsChain | vertus/apps/vertus-bar/MathEval.swift:311-333 | a chain of prefixed and postfixed atoms joined by `^` is read right-associatively, signs under postfixes under powers |
| MathReading.ExprReadsPrinted | vertus/apps/vertus-bar/MathEval.swift:278-309 | a printed sum or product is read back as its operands are, whatever follows it |
| MathChains.PrintsAsChain | vertus/apps/vertus-bar/MathEval.swift:466-511 | what the printer writes of a factor is the token sequence of its chain |
| MathRoundTrip.UnfaithfulTrees | vertus/apps/vertus-bar/MathEval.swift:466-511 | for all numbers, five trees that do not come back: a negated power, a power of a power, a factorial of a power, a negated and a rooted factorial, each with what it is read back as |
| MathSpelling.AnySpelling | vertus/apps/vertus-bar/MathEval.swift:268-442 | `*`, `·`, `\times`, `\cdot` and `×`, `÷`, `\div` and `/`, `−` and `-`, and every spelling of a constant, root, fraction or function name: an accepted stream reads the same in one spelling for all if and only if no operator command stands where an operand is due, and is rejected otherwise; what is rejected stays rejected |
| MathNotation.OperatorReadAsFunction | vertus/apps/vertus-bar/MathEval.swift:387-403 | why an operator command must not stand there: `\times` before a group is read as a call of a function of that name |
| MathNotation.ImplicitProduct | vertus/apps/vertus-bar/MathEval.swift:290-309 | leaving out the `×` between two printed factors gives the same tree if and only if the second does not open with a minus sign |
| MathNotation.GroupIsItself | vertus/apps/vertus-bar/MathEval.swift:268-359 | a printed tree in parentheses or braces, or with a trailing `=`, is read as without them |
| MathNotation.FractionReads | vertus/apps/vertus-bar/MathEval.swift:361-403 | `\frac`, `\dfrac` and their names in any case, with two braced groups, are the fraction of the first over the second |
| MathNotation.RootReads | vertus/apps/vertus-bar/MathEval.swift:361-403 | `\sqrt`, `sqrt` and `√` with a group are its root |
| MathNotation.FunctionReads | vertus/apps/vertus-bar/MathEval.swift:361-414 | any other name that is no constant is, with a group, a call of that name in lower case; `min` and `max` take parentheses only |
| MathNotation.CommandReads | vertus/apps/vertus-bar/MathEval.swift:387-414 | a command without a meaning of its own is, with a group, a call of its name |
| MathNotation.ConstantReads | vertus/apps/vertus-bar/MathEval.swift:361-385 | the spellings of pi, tau, e and infinity, in any case |
| MathNotation.ConstantCommandReads | vertus/apps/vertus-bar/MathEval.swift:387-403 | `\pi`, `\tau` and `\infty` are the constants |
| MathNotation.PlusSignIsNothing | vertus/apps/vertus-bar/MathEval.swift:329-333 | a leading plus sign changes nothing |
| MathStreams.AcceptedIsBalanced | vertus/apps/vertus-bar/MathEval.swift:268-442 | an accepted stream never closes more groups than it has opened and closes all of them |
| MathStreams.AcceptedNames | vertus/apps/vertus-bar/MathEval.swift:361-403 | without commands, an accepted stream yields only calls of readable names, and tau only if the stream names it |
| MathProgress.IsMathInProgress | vertus/apps/vertus-bar/MathEval.swift:46-81 | the one-pass check answers yes exactly on non-empty streams that start as math may and of which no prefix closes more groups than it opened |
| MathProgress.StartIffContinues | vertus/apps/vertus-bar/MathEval.swift:46-81 | of the tokens other than commands, the check lets a stream start with exactly those with which some stream begins that evaluates; it allows every command |
| MathProgress.PrefixInProgress | vertus/apps/vertus-bar/MathEval.swift:46-81 | a non-empty prefix of an accepted stream is judged in progress if and only if the stream does not open with a function the check does not list: the depth check never rejects it |
| MathProgress.NoFlicker | vertus/apps/vertus-bar/MathEval.swift:26-81 | while a stream that will evaluate is typed token by token, every non-empty prefix is in progress |
| LeaseRuns.CountIsHolders | pi/packages/client/src/client.ts:381-412 | on every run in which each message is handled with the calls it lets resume, for a session that was not removed, the lease count is the number of suspended calls and live leases, and the registered exclusive token is the exclusive holder, alone |
| LeaseRuns.RefusedIffHeld | pi/packages/client/src/client.ts:381-393 | an exclusive request is refused exactly when someone holds the session, a shared one exactly when an exclusive token does |
| LeaseRuns.DetachOnlyAlone | pi/packages/client/src/client.ts:231-268 | a release sends a detach if and only if its lease is active and nobody else holds the session |
| LeaseOutcomes.AcquireOutcome | pi/packages/client/src/client.ts:151-177 | in every run, a call is refused exactly when the session is held against it; else it waits for a detach in flight, or gets a lease at once if the session is attached and needs no cleanup, or waits for the request it needs if that can be had; nobody else's standing changes |
| LeaseOutcomes.ReleaseOutcome | pi/packages/client/src/client.ts:231-268 | in every run, releasing a lease that is not active changes nobody's standing; one of several holders ends its lease at once; the last one asks for a detach, and if that cannot be sent `dispose` ends the lease and leaves a cleanup due, `detach` keeps lease and session as they were |
| LeaseOutcomes.DetachOutcome | pi/packages/client/src/client.ts:242-266 | in every run, the reply to a releasing detach ends the lease if it succeeds or was for `dispose`, and keeps it, active again, if a `detach` failed; a cleanup is due exactly after a failed `dispose`; every call that waited gets a lease, waits on or is given up as the session then is; no other holder is lost |
| LeaseOutcomes.AttachOutcome | pi/packages/client/src/client.ts:160-187 | in every run, the reply to an attach gives every call that waited for it a lease, or none of them, and changes nobody else's standing |
| LeaseOutcomes.ReconcileOutcome | pi/packages/client/src/client.ts:363-379 | in every run, the reply to a cleanup lifts it exactly if it succeeds; every call that waited then waits for an attach, if one can be had, or is given up |
| LeaseOutcomes.CreateOutcome | pi/packages/client/src/client.ts:141-145 | in every run, a created session gives an exclusive lease exactly if nobody holds it |
| LeaseOutcomes.ReportOutcome | pi/packages/client/src/client.ts:291-328 | in every run, a report changes no standing; a removal or a disconnect ends every lease, and a disconnect gives up every waiting call |
| LeaseOutcomes.DisposeEnds | pi/packages/client/src/client.ts:231-268 | after `dispose` of an active lease it is never active again, and once its detach, if it needs one, has been answered, it has ended whatever the reply |
| LeaseRuns.NoLeaseMeanwhile | pi/packages/client/src/client.ts:151-177 | no lease is active while a detach is in flight, a cleanup is due, or after removal |
| LeaseRuns.EndedForever | pi/packages/client/src/client.ts:209-229 | a lease that was released or invalidated is never live again |
| LeaseRuns.NoneSurvives | pi/packages/client/src/client.ts:321-328 | no lease survives a disconnect or the removal of its session |
| LeaseRuns.CleanupBeforeLease | pi/packages/client/src/client.ts:363-379 | once a session needs cleanup, the next active lease comes after a successful cleaning detach and a later report that the session is attached, unless all was invalidated between |
| LeaseRuns.StageTellsHistory | pi/packages/client/src/client.ts:363-379 | which of the two steps of a cleanup is still due is told by the events so far |
| LeaseRuns.StepKeeps | pi/packages/client/src/client.ts:141-412 | every event keeps the account, exclusion, serialised detaches and cleanup order of its session, in every interleaving |
| LeaseRuns.AttachAfterRemovalBreaksTheCount | pi/packages/client/src/client.ts:151-177 | why a removed session must stay unattachable: otherwise a waiting token gets an active lease with count zero, and an exclusive request is granted beside it |
| LeaseChunks.ResumedLeaseIsAccounted | pi/packages/client/src/client.ts:160-230 | when calls resume only after later messages of the chunk that brought their attach reply: each gets a live lease, and it has a count behind it if and only if the session's generation is the one its token was reserved under, which is if and only if none of those messages removed the session or ended the connection |
| LeaseChunks.ResumedCallIsAccounted | pi/packages/client/src/client.ts:155-177 | the same of a call that waited for a detach: if it goes on, its token is counted if and only if the generation has not moved on |
| LeaseChunks.AttachAndCloseInOneChunk | pi/packages/client/src/connection.ts:142-160 | an attach reply and a message that ends the connection in one chunk: the waiting call gets a lease of the new generation with count zero, and after a reconnect an exclusive lease is given beside it |
| LeaseInvariant.AcquireKeeps | pi/packages/client/src/client.ts:151-177 | acquiring keeps the invariant, with a detach, cleanup or attach in flight or none |
| LeaseInvariant.AttachSettledKeeps | pi/packages/client/src/client.ts:160-187 | an attach reply gives all its waiters a lease, or takes all their tokens back, in any order of resumption |
| LeaseInvariant.ReconcileSettledKeeps | pi/packages/client/src/client.ts:363-379 | a cleanup reply lets its waiters attach afresh, or takes their tokens back |
| LeaseInvariant.ReleaseKeeps | pi/packages/client/src/client.ts:231-253 | releasing keeps the invariant, shared, last, or when the detach cannot be sent |
| LeaseInvariant.DetachSettledKeeps | pi/packages/client/src/client.ts:237-266 | the reply to a releasing detach keeps the invariant, whether the lease is released, kept or relinquished |
| LeaseInvariant.DisconnectedKeeps | pi/packages/client/src/client.ts:321-412 | a close keeps the invariant and leaves every live session's count at zero |
| LeaseInvariant.RemovedIsDead | pi/packages/client/src/client.ts:295-299 | after its removal a session has no live lease |
| LeaseClosing.FailedLeaves | pi/packages/client/src/client.ts:321-340 | once closed, failing any request in flight leaves of the session just what failing all would |
| LeaseClient.PiClient.ReserveSessionLease | pi/packages/client/src/client.ts:381-393 | the specified reservation, or none; other sessions unchanged |
| LeaseClient.PiClient.ReleaseSessionLease | pi/packages/client/src/client.ts:395-400 | the token's share is given back; other sessions unchanged |
| LeaseClient.PiClient.InvalidateSessionLeases | pi/packages/client/src/client.ts:402-407 | count, exclusivity and cleanup are cleared and the generation moves on; other sessions unchanged |
| LeaseClient.PiClient.InvalidateAllSessionLeases | pi/packages/client/src/client.ts:409-412 | every session that is held is invalidated, no other changed, no cleanup stays due |
| LeaseClient.PiClient.CreateSessionLease | pi/packages/client/src/client.ts:209-229 | a new active lease of the present generation; other sessions unchanged |
| LeaseClient.PiClient.LeaseIsActive | pi/packages/client/src/client.ts:214-225 | active means neither ended nor outdated, in an attached session |
| LeaseClient.PiClient.Request | pi/packages/client/src/client.ts:189-207 | identifiers are handed out in order; a request that cannot be sent or encoded is rejected, never left pending |
| LeaseClient.PiClient.AttachSession | pi/packages/client/src/client.ts:179-187 | the attach in flight is the request just sent; nothing else changes |
| LeaseClient.PiClient.AwaitAttachment | pi/packages/client/src/client.ts:160-171 | joins the attach in flight or sends one; the token is given back if it cannot be sent |
| LeaseClient.PiClient.ReconcileSessionCleanup | pi/packages/client/src/client.ts:363-379 | joins the cleaning detach in flight or sends one; the token is given back if it cannot be sent |
| LeaseClient.PiClient.ProceedAcquire | pi/packages/client/src/client.ts:157-172 | the rest of an acquire once no detach is in flight, as specified |
| LeaseClient.PiClient.AcquireSession | pi/packages/client/src/client.ts:151-177 | one acquire event of the protocol; refused exactly as specified, nothing done after disposal |
| LeaseClient.PiClient.ReleaseLease | pi/packages/client/src/client.ts:231-289 | one release event of the protocol, for `detach` and `dispose` alike |
| LeaseClient.PiClient.LeaseRequest | pi/packages/client/src/client.ts:226-229 | a lease's command is sent exactly while the lease is active; nothing is settled by that |
| LeaseClient.PiClient.SendRequest | pi/packages/client/src/client.ts:137-145 | a caller's own command gets the next identifier if it can be sent; no session changes and nothing is settled by that |
| LeaseClient.PiClient.SettleAttach | pi/packages/client/src/client.ts:160-187 | all waiters of the attach resume, each with a lease or its token given back; exactly that request leaves flight |
| LeaseClient.PiClient.SettleCleanup | pi/packages/client/src/client.ts:367-378 | the waiters of a cleanup go on to attach, or give their tokens back |
| LeaseClient.PiClient.SettleRelease | pi/packages/client/src/client.ts:242-266 | the release is settled first, then the calls that waited for the detach proceed |
| LeaseClient.PiClient.FailRelease | pi/packages/client/src/client.ts:254-265 | an outdated lease is invalidated, else relinquished with cleanup due, or kept |
| LeaseClient.PiClient.FailRequest | pi/packages/client/src/client.ts:305-308 | the request is rejected and what awaits it fails as specified |
| LeaseClient.PiClient.ReplyAttach | pi/packages/client/src/client.ts:317-318 | one attach event of the protocol, with the attachment the kept snapshot says |
| LeaseClient.PiClient.ReplyCleanup | pi/packages/client/src/client.ts:317-318 | one successful cleanup event of the protocol |
| LeaseClient.PiClient.ReplyRelease | pi/packages/client/src/client.ts:317-318 | one successful detach event of the protocol |
| LeaseClient.PiClient.ReplyCreate | pi/packages/client/src/client.ts:141-145 | an exclusive lease of the created session, refused exactly if someone holds it |
| LeaseClient.PiClient.ReplyCaller | pi/packages/client/src/client.ts:309-318 | the snapshot a reply carries is applied to its session and nothing else |
| LeaseClient.PiClient.ReplyFailure | pi/packages/client/src/client.ts:305-308 | one failure event of the protocol, or none if nobody but the caller waits |
| LeaseClient.PiClient.HandleResponse | pi/packages/client/src/client.ts:300-318 | an awaited response settles exactly its request, resolved if and only if it is a result for that request's command; nothing else is ever resolved by it, and the other requests stay pending unless sending one failed; any other response closes the connection and empties the pending requests |
| LeaseClient.PiClient.HandleSessionSnapshot | pi/packages/client/src/client.ts:294-299 | one report event of the protocol |
| LeaseClient.PiClient.HandleSessionRemoved | pi/packages/client/src/client.ts:295-298 | one removal event of the protocol; requests in flight stay pending |
| LeaseClient.PiClient.RejectPendingRequests | pi/packages/client/src/client.ts:336-340 | every pending request is rejected, none stays; every session is left as if all it had in flight had failed |
| LeaseClient.PiClient.Connect | pi/packages/client/src/client.ts:107-111 | a new connection starts with nothing held and nothing attached: no lease is live, no call suspended |
| LeaseClient.PiClient.Disconnect | pi/packages/client/src/client.ts:321-328 | every session suffers one disconnection, every pending request is rejected and none resolved, and settled requests stay as they were |
| LeaseClient.PiClient.Dispose | pi/packages/client/src/client.ts:342-353 | as a disconnect, for good |
| LeaseClient.PiClient.Reachable | pi/packages/client/src/client.ts:51-66 | at any time each session's state is the end of a run of the protocol, so all that holds of runs holds of the client |
| LeaseClient.PiClient.CountsAreHolders | pi/packages/client/src/client.ts:381-400 | the client's counts and exclusive tokens are the holders of its sessions, each inbound message being handled with the calls it lets resume |
| LeaseClient.PiClient.ActiveLease | pi/packages/client/src/client.ts:222-230 | an active lease means a connected client, an attached session not removed, nothing in flight for it to wait on, and no exclusive lease beside it, under the same condition |
| ClientStates.KeepsTheLatest | pi/packages/client/src/state.ts:106-113 | whatever was known, a batch of snapshots comes to its newest one alone, the last of equals, with its attached flag unless what is kept is newer still |
| ClientStates.OrderDoesNotMatter | pi/packages/client/src/state.ts:106-113 | whatever was known, snapshots with distinct revisions leave the same in every order |
| ClientStates.RevisionsNeverDecrease | pi/packages/client/src/state.ts:106-113 | the stored revision never goes down and is at least every one applied |
| ClientStates.ClientState.ApplySessionSnapshot | pi/packages/client/src/state.ts:106-113 | an older snapshot is ignored unless forced; other sessions unchanged |
| ClientStates.ClientState.ApplyDetached | pi/packages/client/src/state.ts:77-84 | a detach reply leaves the session unattached, its snapshot otherwise kept |
| ClientStates.ClientState.ApplyRemoved | pi/packages/client/src/state.ts:91-94 | a removed session is forgotten and unattached |
| ClientStates.ClientState.ForgetSessionSnapshot | pi/packages/client/src/state.ts:49-53 | returns and drops the session's snapshot, attachment kept |
| ClientStates.ClientState.RestoreSessionSnapshot | pi/packages/client/src/state.ts:55-57 | puts a snapshot back only where there is none |
| Handshakes.Connection.Connect | pi/packages/client/src/connection.ts:66-90 | a new connection with an open handshake, refused unless disconnected; a callback that ends it at once leaves that handshake rejected |
| Handshakes.Connection.Fail | pi/packages/client/src/connection.ts:225-231 | the open handshake, if any, is rejected and the connection ended; no connection is left unless the callback for that makes a new one |
| Handshakes.Connection.OpenTransport | pi/packages/client/src/connection.ts:119-140 | a transport is kept only by the connection that asked for it and still connects; a factory that throws ends that connection and no other |
| Handshakes.Connection.HandleMessage | pi/packages/client/src/connection.ts:162-204 | the first message settles the handshake: resolved exactly for a hello over a transport whose callbacks neither throw nor end the connection, rejected otherwise, whatever else the callbacks do; afterwards none is open unless a new connection was begun |
| Handshakes.Connection.HandleClose | pi/packages/client/src/connection.ts:79-87 | a transport's end ends its own connection and no later one |
| Handshakes.Connection.HandleData | pi/packages/client/src/connection.ts:142-160 | a chunk that is not the present connection's changes nothing; settled handshakes stay settled; with callbacks that do nothing no connection is begun |
| Handshakes.Connection.ConnectAnewWithinChunk | pi/packages/client/src/connection.ts:156-231 | when a message ends the connection and the callback for that connects anew, the new connection outlasts the chunk if and only if the message was its last; otherwise the next message of the old transport rejects the new handshake, whatever the callbacks do |
| TranscriptPacking.PackedIsSplit | pi/scripts/session-transcripts.ts:196-241 | the greedy files hold all transcripts in order, each one transcript of any size or within the limit |
| TranscriptPacking.FewestFiles | pi/scripts/session-transcripts.ts:196-241 | no other division in order that obeys the rule uses fewer files |
| TranscriptPacking.StaysAhead | pi/scripts/session-transcripts.ts:196-241 | against any such division the greedy one has no more files, and where it has as many, its last file is no longer |
| TranscriptPacking.Pack | pi/scripts/session-transcripts.ts:196-241 | the loop writes exactly the files of the greedy division, joined by blank lines |
| CatalogPublication.MutationsDoNotOverlap | pi/packages/ai/src/models.ts:345-357 | per provider at most one store mutation is under way |
| CatalogPublication.TurnComes | pi/packages/ai/src/models.ts:344-347 | when what a publication waits for has settled, so has everything queued before it |
| CatalogRuns.StepKeeps | pi/packages/ai/src/models.ts:320-365 | every step keeps the order of publications, their chains, and that a mutation which has landed is what the store holds until its publication resumes |
| CatalogEffects.CurrentIffCounts | pi/packages/ai/src/models.ts:338-344 | a publication is current exactly if no refresh of its provider has begun or been superseded since its own began and none of its signals has been raised |
| CatalogEffects.AbortedIffRaised | pi/packages/ai/src/models.ts:320-336 | a signal is aborted exactly if its caller raised it or its refresh was superseded |
| CatalogEffects.StartComesTo | pi/packages/ai/src/models.ts:346-354 | a publication that starts is refused exactly if it no longer counts; else it goes on to its store mutation or, having none, is published and memory follows |
| CatalogEffects.ResumptionComesTo | pi/packages/ai/src/models.ts:355-358 | after its mutation a publication is published, and memory follows, exactly if it still counts |
| CatalogEffects.FailureComesTo | pi/packages/ai/src/models.ts:349-359 | a failed mutation changes neither store nor memory beyond what landed |
| CatalogEffects.ChainIsUnsettled | pi/packages/ai/src/models.ts:338-365 | a provider's chain ends in a publication of its own that has not settled, or is empty |
| CatalogEffects.EndForgetsItsOwn | pi/packages/ai/src/models.ts:431-435 | the end of a refresh forgets its own controller, if it is still there, and no other |
| CatalogRuns.MutationsInOrder | pi/packages/ai/src/models.ts:345-353 | per provider, store mutations start in the order of their generations |
| CatalogRuns.UpdatesAreCurrent | pi/packages/ai/src/models.ts:345-358 | memory changes only through a publication that is current at that moment, and then to what it sets |
| CatalogRuns.PublishedAgrees | pi/packages/ai/src/models.ts:349-358 | whatever comes between the landing of a mutation and the resumption of its publication: if that then succeeds and sets what it stored, store and memory hold that catalog |
| CatalogRuns.StoreIsLastLanding | pi/packages/ai/src/models.ts:349-353 | the store's entry of a provider is what the last mutation that landed left, or what it was |
| CatalogRuns.RestoreAgreesIff | pi/packages/ai/src/models.ts:367-384 | after a restore is published memory holds its provider's models of what the refresh read; that is what restoring the store's entry would give if and only if no mutation of the provider has landed since the read, or the last that did left the same models of the provider |
| CatalogRuns.RestoreEqualsIff | pi/packages/ai/src/models.ts:801-816 | memory and store hold the very same catalog if and only if what the refresh read, or what the last mutation since has left, is the provider's own models of what it read and nothing else |
| CatalogRuns.LandingsMeanwhile | pi/packages/ai/src/models.ts:338-384 | what lands between a read and its restore was under way at the read, or is a publication of the refresh itself started since |
| CatalogRuns.AwaitingRestoreAgreesIff | pi/packages/ai/src/models.ts:367-384 | if a refresh awaits its own publications, a restore agrees with the store if and only if no mutation under way at the read lands other models of the provider before it |
| CatalogRuns.LaggingRestoreWasOvertaken | pi/packages/ai/src/models.ts:367-384 | a restore that does not agree was overtaken by a mutation of another catalog |
| CatalogRuns.QuietRestoreAgrees | pi/packages/ai/src/models.ts:338-384 | a restore agrees with the store if the provider had no publication in its chain at the read and the refresh queues no other before it |
| CatalogRuns.RestoreMayLag | pi/packages/ai/src/models.ts:367-384 | a refresh that restores what it read while a superseded one was still writing leaves memory with the old catalog and the store with the new one |
| CatalogRuns.OvertakenAndBack | pi/packages/ai/src/models.ts:338-384 | two writes of a refresh that awaits neither land between its read and its restore, the first of another catalog, and yet memory and store agree: it is the last landing that decides |
| CatalogModels.ModelsImpl.SupersedeProviderRefresh | pi/packages/ai/src/models.ts:320-329 | the generation moves on and the running refresh is aborted, so no publication queued so far can take effect |
| CatalogModels.ModelsImpl.BeginProviderRefresh | pi/packages/ai/src/models.ts:331-336 | a new generation with an unaborted signal of its own |
| CatalogModels.ModelsImpl.PublishProviderModels | pi/packages/ai/src/models.ts:338-365 | the publication is queued behind the last one of its provider |
| CatalogModels.ModelsImpl.StartPublication | pi/packages/ai/src/models.ts:346-354 | it is refused if superseded or aborted, else starts its store mutation or, having none, updates memory |
| CatalogModels.ModelsImpl.LandMutation | pi/packages/ai/src/models.ts:349-353 | the store holds what the publication writes, or nothing; memory and the publication's outcome are still open |
| CatalogModels.ModelsImpl.FinishStoring | pi/packages/ai/src/models.ts:355-358 | memory follows only if the generation is still current and no signal raised; if the publication then succeeds and set what it stored, store and memory agree |
| CatalogModels.ModelsImpl.FailStoring | pi/packages/ai/src/models.ts:349-359 | a failed mutation settles the publication without touching memory and lets the next proceed, whether or not the store made it |
| CatalogModels.ModelsImpl.AbortCaller | pi/packages/ai/src/models.ts:386-445 | a caller's raised signal stops every publication that carries it |
| CatalogModels.ModelsImpl.EndRefresh | pi/packages/ai/src/models.ts:431-435 | only the refresh's own controller is forgotten; every other is kept |
| CatalogModels.CurrentModels | pi/packages/ai/src/models.ts:766-774 | looking a model up gives the last dynamic model with the id, or else the first of the baseline |
| PlanClassifier.ClassifyCommandLine | vertus/extensions/plan-mode/index.ts:455-565 | the one-pass scan gives the verdict, with its reason, of splitting the line into pieces first and checking them in order then |
| PlanClassifier.ClassifyOperator | vertus/extensions/plan-mode/index.ts:487-560 | what an operator completes gets the verdict of the piece it ends, and the scan goes on where the split does |
| PlanClassifier.ClassifySegment | vertus/extensions/plan-mode/index.ts:292-313 | a segment's nested command lines are judged in order, then its own command |
| PlanClassifier.NextCommandSubstitution | vertus/extensions/plan-mode/index.ts:242-262 | finds the next nested command line, or that there is none |
| PlanClassifier.ScanRedirection | vertus/extensions/plan-mode/index.ts:523-560 | a redirection ends where the specification says and yields its output target, if it has one |
| PlanVerdicts.AcceptedIff | vertus/extensions/plan-mode/index.ts:292-565 | a line is accepted at a depth if and only if every command and target in it passes, at every level, and nothing is nested deeper than the bound leaves room for |
| PlanVerdicts.ShallowerAccepts | vertus/extensions/plan-mode/index.ts:292-456 | what is accepted at some depth is accepted at every smaller one |
| PlanSplitting.OperatorsSplit | vertus/extensions/plan-mode/index.ts:491-502 | for each of `;`, pipe, newline, `&`, two pipes and `&&`, the pieces of two lines joined by it are those of the first and those of the second, for a first line that leaves nothing open and, before a newline or ampersand, does not end in a redirection without its target |
| PlanSplitting.SequenceAccepted | vertus/extensions/plan-mode/index.ts:455-565 | two lines joined by any of the six are accepted if and only if both are, under the same conditions |
| PlanSplitting.DanglingTakes | vertus/extensions/plan-mode/index.ts:517-530 | why the condition: such a redirection takes an ampersand or newline for its own, and some second line is then split otherwise |
| PlanSplitting.TwoAmpersands | vertus/extensions/plan-mode/index.ts:517-530 | after a redirection without its target `&&` separates, whatever follows, exactly if it was an input redirection |
| PlanSplitting.ProtectedIsOnePiece | vertus/extensions/plan-mode/index.ts:458-490 | a line in which every separator and redirection sign is quoted or escaped is one piece, that line trimmed |
| PlanForms.RedirectionChecksTarget | vertus/extensions/plan-mode/index.ts:517-557 | an output redirection, truncating or appending, quoted or bare, is checked for exactly its target; an input redirection for nothing; the line goes on after it |
| PlanForms.DuplicationIsNotChecked | vertus/extensions/plan-mode/index.ts:517-557 | a duplicated descriptor is not checked, and the line goes on after its digits |
| PlanForms.HereMarkerIsNotChecked | vertus/extensions/plan-mode/index.ts:517-557 | the two signs of a here-document are dropped and what follows is read on as part of the line |
| PlanForms.ProcessIsItsGroup | vertus/extensions/plan-mode/index.ts:503-516 | a process substitution is checked for exactly the line between its balanced parentheses |
| PlanForms.SubstitutionIsItsGroup | vertus/extensions/plan-mode/index.ts:242-303 | a command substitution nests exactly the line between its balanced parentheses or its backquotes |
| PlanForms.OthersNestNothing | vertus/extensions/plan-mode/index.ts:242-262 | no other character begins a nested line |
| PlanForms.CommandAccepted | vertus/extensions/plan-mode/index.ts:292-565 | a command is accepted exactly if every command in it passes, at every level, every output goes to `/dev/null`, and no line is nested more than six levels deep |
| PlanForms.BlockedByFirst | vertus/extensions/plan-mode/index.ts:292-565 | a line is blocked for the reason of the first of its pieces that is not accepted, or for its depth |
| PlanSyntax.NestedAreShorter | vertus/extensions/plan-mode/index.ts:242-303 | nested lines are shorter than the line, so the scan would end without a depth bound |
| PlanMode.FilterPlanModeNotices | vertus/extensions/plan-mode/index.ts:111-131 | keeps every other message and the newest notice of the mode; the count of dropped ones is right |
| PlanMode.FilterKeeps | vertus/extensions/plan-mode/index.ts:111-131 | other messages keep their order; exactly one notice of the mode is left if there was one, and none of the other |
| PlanMode.FilterTwice | vertus/extensions/plan-mode/index.ts:111-131 | filtering twice is filtering once |
| PlanMode.NewestIsKept | vertus/extensions/plan-mode/index.ts:111-131 | the notice kept is the newest that matches |
| PlanMode.Extension.ApplyToolGate | vertus/extensions/plan-mode/index.ts:605-621 | in plan mode no write tool is active; outside, the tools from before are back |
| PlanMode.Extension.SetEnabled | vertus/extensions/plan-mode/index.ts:859-878 | changing the mode forgets what was announced and gates the tools; not changing it does nothing |
| PlanMode.Extension.ToggleTwice | vertus/extensions/plan-mode/index.ts:859-878 | switching plan mode on and off gives back the tools that were active |
| PlanMode.Extension.SessionStart | vertus/extensions/plan-mode/index.ts:904-925 | a session starts unannounced in the wanted mode, with any history |
| PlanMode.Extension.BeforeAgentStart | vertus/extensions/plan-mode/index.ts:930-941 | after it the history holds a notice of the present mode, newly given or still there |
| PlanMode.Extension.OnContext | vertus/extensions/plan-mode/index.ts:946-950 | an LLM call sees no notice of the other mode, and one of this exactly if any is left in the history, which is so if the mode has stayed the same since the turn began |
| PlanMode.Extension.ChangeWithinTurn | vertus/extensions/plan-mode/index.ts:859-950 | when the mode changes after a turn has begun, the turn's next LLM call sees a notice of the new mode if and only if the history held one from before |
| PlanMode.EnteredUnannounced | vertus/extensions/plan-mode/index.ts:859-950 | plan mode entered for the first time during a turn: the next LLM call sees no notice at all |
| GatewayTurns.NoLostWakeUp | vertus/server/hermes_bridge.py:70-100 | in every interleaving of workers, reader and a close from any thread, a waiting turn is woken or some thread is on its way to wake it, if and only if it was not replaced in the slot |
| GatewayTurns.NoneLeftWaiting | vertus/server/hermes_bridge.py:314-325 | once the reader has cleaned up and no worker is on its way, a waiting turn has been woken if and only if it was not replaced |
| GatewayTurns.DeathWakesTheTurn | vertus/server/hermes_bridge.py:70-100 | with one prompt at a time, once the reader has cleaned up, a worker that waits has been woken |
| GatewayChecks.InFlightIsRefused | vertus/server/hermes_bridge.py:75-90 | a worker that finds a turn in flight has returned without registering, in every later world; one that finds none goes on |
| GatewayChecks.DeadIsRefused | vertus/server/hermes_bridge.py:75-90 | the same of a worker that finds the gateway dead, or cannot submit to it |
| GatewayChecks.ReplacedIffOverlapped | vertus/server/hermes_bridge.py:80-97 | a turn has been replaced if and only if some other worker checked that none was in flight before it registered, and registered after it while it was still in the slot |
| GatewayChecks.ReturnedWasTaken | vertus/server/hermes_bridge.py:92-104 | a worker returns from its wait only after its turn was taken out of the slot, by the reader or by itself after the gateway's death |
| GatewayChecks.LooksAgain | vertus/server/hermes_bridge.py:92-100 | a worker that has registered looks for the gateway's death once more, takes its own turn back if it finds it, and waits otherwise |
| GatewayTurns.ReplacedTurnIsLost | vertus/server/hermes_bridge.py:80-97 | two prompts at once can both pass the check for a turn in flight; the replaced one then waits for ever |
| GatewayCalls.OnlyOwnResponses | vertus/server/hermes_bridge.py:189-209 | in every interleaving of callers and reader, a call returns results for its own identifier only, and raises its own error, a timeout or a lost response; the gateway's exit is never what it raises |
| GatewayAnswers.ArrivedIsGiven | vertus/server/hermes_bridge.py:285-325 | what is given to a call is what arrived for it while it was pending, in order, but for the one response still in the reader's hand |
| GatewayAnswers.HasAlways | vertus/server/hermes_bridge.py:189-209 | a call's holder has exactly the results and errors given to it, and the gateway's exit if it was told of it |
| GatewayAnswers.CollectComesTo | vertus/server/hermes_bridge.py:189-209 | a call that is woken finds its response lost exactly if the gateway's death took it out of the table; else it raises the first error it was given, or returns the results |
| GatewayAnswers.TimeOutComesTo | vertus/server/hermes_bridge.py:189-209 | a call that is not woken in time raises a timeout and is pending no longer |
| GatewayAnswers.SettledOnce | vertus/server/hermes_bridge.py:189-209 | a call's outcome never changes |
| GatewayAnswers.WokenIffAnswered | vertus/server/hermes_bridge.py:285-325 | a call is woken exactly if a response was given to it or it was told of the gateway's exit |
| GatewayCalls.DeathAnswersAll | vertus/server/hermes_bridge.py:314-325 | once the reader has failed what was pending at the gateway's death, a call is answered, or it was begun after the reader took those calls: only such calls wait for their timeout |
| ProxyStream.LinesOfCut | pi/packages/agent/src/proxy.ts:194-196 | cutting a text anywhere gives the same lines if the unfinished one is carried over |
| ProxyStream.Decoder.ReadAll | pi/packages/agent/src/proxy.ts:185-209 | whatever way the text is cut into chunks, the events passed on, the message and failure are those of its complete lines |
| ProxyStream.Decoder.StreamProxy | pi/packages/agent/src/proxy.ts:181-228 | consumers get what the complete lines pass on, and an error if they fail or reading does, up to the event that completes the stream; the result is known exactly if there is one; a failure is entered in the message |
| ProxyStream.Decoder.ProcessProxyEvent | pi/packages/agent/src/proxy.ts:240-369 | the message after an event is the specified one, with signatures, tool calls, stop reason and usage; an event that does not fit its block fails, except the end of a tool call, which is dropped |
| ProxyStream.Decoder.Push | pi/packages/ai/src/utils/event-stream.ts:21-36 | after the event that completes the stream nothing reaches its consumers |
| ProxyStream.DeliveredUntilCompleted | pi/packages/ai/src/utils/event-stream.ts:21-36 | what is delivered is a prefix of what is pushed, all of it unless some event completes the stream, and none after the first that does |
| ProxyStream.ResultIff | pi/packages/agent/src/proxy.ts:181-228 | a stream gets its result if and only if it fails or one of its complete lines completes it |
| ProxyStream.UnfinishedLineIsLost | pi/packages/agent/src/proxy.ts:194-213 | a last line without a line feed is never handled: if it holds the event that completes the stream, the stream ends without a result |
| ProxyStream.MessageIsApplied | pi/packages/agent/src/proxy.ts:198-209 | a stream that has not failed holds the message its events build |
| ProxyStream.BlockIsItsDeltas | pi/packages/agent/src/proxy.ts:250-337 | since its last start a text or thinking block is the concatenation of its deltas, and a tool call that has not ended has the arguments their concatenation parses to, or none |
| ProxyMessages.StopIsLastCompletion | pi/packages/agent/src/proxy.ts:351-369 | stop reason and usage of a stream's message are those of its last done or error event; without one it is pending |
| ProxyMessages.ErrorIsLastError | pi/packages/agent/src/proxy.ts:358-369 | its error message is that of its last error event, if any |
| ProxyMessages.KindIsLastStart | pi/packages/agent/src/proxy.ts:240-349 | a block is of the kind it was last started as, and there is none that was not started |
| ProxyMessages.FailsIffMisfits | pi/packages/agent/src/proxy.ts:240-349 | an event fails the stream exactly if it goes on with a block that was not last started as its kind, the end of a tool call excepted, which is then not passed on; every other event is passed on |
| ProxyMessages.SignatureIsLastEnd | pi/packages/agent/src/proxy.ts:262-303 | a text or thinking block has the signature of its last end since it was started |
| ProxyMessages.FragmentAfterEnd | pi/packages/agent/src/proxy.ts:319-349 | a fragment that comes after the end of its call starts the arguments anew, as text after `undefined` |
| ProxyMessages.FailsIff | pi/packages/agent/src/proxy.ts:181-228 | a stream's lines fail exactly at the first that does not parse or whose event does not fit |
| ProxyMessages.PassedOn | pi/packages/agent/src/proxy.ts:185-209 | exactly the events that fit are passed on, in order |
| ProxyStream.EndReplacesCall | pi/packages/agent/src/proxy.ts:338-349 | the end of a tool call puts the complete call in the place of what its fragments came to |

## Left out

- MathParser.Parser.ParseName: letters outside ASCII fold to themselves, but for the two that fold into a name the parser knows, so the name kept of an unknown function may keep capitals of another script; numbers are real numbers instead of doubles.
- LeaseClient.PiClient.ActiveLease: does not cover messages of one chunk handled before the calls an earlier one let resume; what that breaks, and exactly when, is `LeaseChunks`.
- LeaseClient.PiClient.Request: a transport that throws while sending is modelled as a request followed by a disconnect.
- LeaseClient.PiClient.TakeWaiting: calls that wait for the same request resume in an arbitrary order, not in that of registration.
- LeaseClient.PiClient.ReplyCreate: which session a `create` names is the server's choice and only assumed to be new.
- GatewayTurns.NoLostWakeUp: a turn that completes before it is registered waits for the gateway's next event or death; each worker prompts once.
- ProxyStream.Decoder.StreamProxy: how a line and the fragments of a call's arguments parse as JSON are parameters, and a consumer sees one message object that goes on changing.
- Handshakes.Connection.HandleMessage: a state listener that throws out of the handshake is excluded; the client catches its listeners' errors.
- Tokenising, number formatting and floating-point values of expressions: the round trip is about tokens.
- The per-command tables of plan mode: a segment's own verdict is an arbitrary predicate, and nothing is claimed about any shell.
- Runs in which listeners or hooks throw, and the failure messages made for them.
- Model, reasoning and usage fields, timestamps, tool names added by results, and conversion of messages for the model.
- The bare agent loop without an `Agent`, which shares its caller's message array.
- The gateway's two-attempt start and the expansion of slash commands.
- Sockets, files, HTTP, timers and framing: only the step each causes is modelled.
- Views, footers, authentication, catalog generation and session management: they would add only easy members.
