/** Messages, tool calls and events of the agent loop. */
module AgentTypes {
  import opened Options

  /** Call ids are only ever compared. */
  type CallId = int

  datatype ToolCall = ToolCall(id: CallId, name: string, arguments: string)

  datatype Block = Text(text: string) | Call(call: ToolCall)

  datatype StopReason = EndTurn | Length | ToolUse | Failed | Aborted

  datatype AssistantMessage = AssistantMessage(content: seq<Block>, stop: StopReason, error: Option<string>)
  {
    /** The tool calls of the message, in source order. */
    function ToolCalls(): seq<ToolCall> { CallsOf(content) }

    predicate Broken() { stop.Failed? || stop.Aborted? }
  }

  function CallsOf(content: seq<Block>): seq<ToolCall> {
    if content == [] then []
    else (if content[0].Call? then [content[0].call] else []) + CallsOf(content[1..])
  }

  /** A text block of a tool result: given verbatim, or one of the loop's own error texts. */
  datatype ResultText =
    | Verbatim(text: string)
    | ToolNotFound(tool: string)
    | NotExecutedTruncated(tool: string)
    | OperationAborted
    | ExecutionBlocked

  /** What a tool or a hook returns; `content` may be missing when the tool is untyped. */
  datatype ToolOutput = ToolOutput(content: Option<seq<ResultText>>, details: string, terminate: Option<bool>)

  datatype ToolResultMessage = ToolResultMessage(
    callId: CallId, name: string, content: seq<ResultText>, details: string, isError: bool)

  /** The message a finished tool call leaves in the transcript. */
  function ResultOf(call: ToolCall, output: ToolOutput, isError: bool): ToolResultMessage {
    ToolResultMessage(call.id, call.name, if output.content.Some? then output.content.value else [], output.details, isError)
  }

  datatype Message =
    | Custom(text: string)
    | FromAssistant(assistant: AssistantMessage)
    | FromTool(result: ToolResultMessage)

  datatype Event =
    | AgentStart
    | AgentEnd(messages: seq<Message>)
    | TurnStart
    | TurnEnd(assistant: AssistantMessage, toolResults: seq<ToolResultMessage>)
    | MessageStart(message: Message)
    | MessageUpdate(message: Message)
    | MessageEnd(message: Message)
    | ToolStart(call: ToolCall)
    | ToolUpdate(call: ToolCall, partial: string)
    | ToolEnd(call: ToolCall, output: ToolOutput, isError: bool)

  function ToolMessages(results: seq<ToolResultMessage>): (r: seq<Message>)
    ensures |r| == |results|
  {
    seq(|results|, i requires 0 <= i < |results| => FromTool(results[i]))
  }
}
