/**
  The bounded tool-calling protocol as pure functions: what a response turns
  into as text, how requests are shaped, what one round of tool execution
  produces, and the whole exchange (`Generate`) as the outcome, the requests
  sent to the model service and the calls made on the tool manager.
 */
module Protocol {
  import opened Api
  import opened ModelService

  /** Tool-execution rounds allowed after the initial request. */
  const MaxToolRounds: nat := 2

  /** The fixed instructions for the model; their prose carries no logic and is not reproduced. */
  const SystemPrompt: string := "<course materials assistant instructions>"

  const HistoryHeader: string := "\n\nPrevious conversation:\n"
  const ToolUseStop: string := "tool_use"
  const Temperature: int := 0
  const MaxTokens: int := 800

  const EmptyResponse: string := "Received empty response from AI service."
  const RoundsExhausted: string := "Could not generate a text response within the allowed tool-use rounds."
  const UnexpectedFormat: string := "Received unexpected response format from AI service."
  const NoToolManager: string := "Unable to search: tool manager not configured."
  const MalformedToolUse: string := "Received malformed tool_use response: no tool_use blocks found."
  const ToolErrorPrefix: string := "Error executing tool: "

  /** The text a response stands for, judged by its first block only. */
  function ExtractText(response: ModelResponse): (text: string)
    ensures response.content == [] ==> text == EmptyResponse
    ensures response.content != [] && response.content[0].Text? ==> text == response.content[0].text
    ensures response.content != [] && response.content[0].ToolUse? ==> text == RoundsExhausted
    ensures response.content != [] && response.content[0].Other? ==> text == UnexpectedFormat
    ensures text !in {EmptyResponse, RoundsExhausted, UnexpectedFormat} ==>
              response.content != [] && response.content[0].Text? && text == response.content[0].text
  {
    if response.content == [] then EmptyResponse
    else
      match response.content[0]
      case Text(t) => t
      case ToolUse(_, _, _) => RoundsExhausted
      case Other(_) => UnexpectedFormat
  }

  /** Whether a conversation history was given (Python truthiness: present and non-empty). */
  predicate HasHistory(history: Option<string>)
  {
    history.Some? && history.value != ""
  }

  /** The system text: the prompt, followed by the history under a header when there is one. */
  function SystemContent(history: Option<string>): (system: string)
    ensures SystemPrompt <= system
    ensures system == SystemPrompt <==> !HasHistory(history)
    ensures HasHistory(history) ==> system[|SystemPrompt|..] == HistoryHeader + history.value
  {
    if HasHistory(history) then SystemPrompt + HistoryHeader + history.value else SystemPrompt
  }

  /** Whether a tool catalog was given (present and non-empty). */
  predicate Offered(tools: Option<seq<ToolDef>>)
  {
    tools.Some? && tools.value != []
  }

  /** A request on the shared parameters; the catalog goes in, with automatic tool choice, only when offered. */
  function NewRequest(base: BaseParams, messages: seq<Message>, system: string,
                      tools: Option<seq<ToolDef>>, offer: bool): (r: Request)
    ensures r.base == base && r.messages == messages && r.system == system
    ensures r.tools.Some? <==> offer && Offered(tools)
    ensures r.tools.Some? ==> r.tools == tools && r.toolChoice == Some(Auto)
    ensures r.tools.None? ==> r.toolChoice.None?
  {
    if offer && Offered(tools) then Request(base, messages, system, tools, Some(Auto))
    else Request(base, messages, system, None, None)
  }

  /** The tool-use blocks of a response, in order. */
  function ToolUses(blocks: seq<Block>): (uses: seq<Block>)
    ensures |uses| <= |blocks|
    ensures forall i :: 0 <= i < |uses| ==> uses[i].ToolUse?
  {
    if blocks == [] then []
    else
      var init := ToolUses(blocks[..|blocks| - 1]);
      var last := blocks[|blocks| - 1];
      if last.ToolUse? then init + [last] else init
  }

  /** The record fed back for one tool-use block, given what the tool did. */
  function ResultFor(block: Block, outcome: ToolOutcome): ToolResult
    requires block.ToolUse?
  {
    match outcome
    case Ok(output) => ToolResult(block.id, output, false)
    case Err(message) => ToolResult(block.id, ToolErrorPrefix + message, true)
  }

  /** The tool results one round produces: one per tool-use block, in block order. */
  function ToolResults(blocks: seq<Block>, run: ToolFn): (results: seq<ToolResult>)
    ensures |results| == |ToolUses(blocks)|
  {
    if blocks == [] then []
    else
      var init := ToolResults(blocks[..|blocks| - 1], run);
      var last := blocks[|blocks| - 1];
      if last.ToolUse? then init + [ResultFor(last, run(last.name, last.input))] else init
  }

  /** The calls one round makes on the tool manager: one per tool-use block, in block order. */
  function ToolCalls(blocks: seq<Block>): (calls: seq<ToolCall>)
    ensures |calls| == |ToolUses(blocks)|
  {
    if blocks == [] then []
    else
      var init := ToolCalls(blocks[..|blocks| - 1]);
      var last := blocks[|blocks| - 1];
      if last.ToolUse? then init + [ToolCall(last.name, last.input)] else init
  }

  /** Everything a round needs that stays fixed during one exchange. */
  datatype Session = Session(base: BaseParams, system: string, tools: Option<seq<ToolDef>>, run: ToolFn)

  /** What an exchange (or its remainder) ends in, the requests it sends and the tool calls it makes. */
  datatype Trace = Trace(outcome: Outcome, requests: seq<Request>, calls: seq<ToolCall>)

  /**
    The rounds from `round` on, with `current` the latest tool-use response,
    `messages` the conversation so far (ending in the assistant turn of
    `current`) and `script` the replies still to come.
   */
  function Rounds(s: Session, round: nat, current: ModelResponse, messages: seq<Message>,
                  script: seq<Reply>): (t: Trace)
    requires round <= MaxToolRounds
    ensures |t.requests| <= MaxToolRounds - round
    decreases MaxToolRounds - round
  {
    if round == MaxToolRounds then Trace(Answer(ExtractText(current)), [], [])
    else
      var results := ToolResults(current.content, s.run);
      if results == [] then Trace(Answer(MalformedToolUse), [], [])
      else
        var calls := ToolCalls(current.content);
        var conversation := messages + [ToolResultsTurn(results)];
        var request := NewRequest(s.base, conversation, s.system, s.tools, round < MaxToolRounds - 1);
        match NextReply(script)
        case Failure(e) => Trace(Raised(e), [request], calls)
        case Response(next) =>
          if next.stopReason != ToolUseStop then Trace(Answer(ExtractText(next)), [request], calls)
          else
            var rest := Rounds(s, round + 1, next, conversation + [AssistantTurn(next.content)], Rest(script));
            Trace(rest.outcome, [request] + rest.requests, calls + rest.calls)
  }

  /**
    A whole exchange: the initial request, then the rounds when the model asks
    for tools and a tool manager is present. `manager` is the tool manager's
    behaviour, `None` when there is no tool manager.
   */
  function Generate(base: BaseParams, query: string, history: Option<string>,
                    tools: Option<seq<ToolDef>>, manager: Option<ToolFn>,
                    script: seq<Reply>): (t: Trace)
    ensures 1 <= |t.requests| <= 1 + MaxToolRounds
    ensures t.requests[0] == NewRequest(base, [UserQuery(query)], SystemContent(history), tools, true)
  {
    var request := NewRequest(base, [UserQuery(query)], SystemContent(history), tools, true);
    match NextReply(script)
    case Failure(e) => Trace(Raised(e), [request], [])
    case Response(response) =>
      if response.stopReason != ToolUseStop then Trace(Answer(ExtractText(response)), [request], [])
      else if manager.None? then Trace(Answer(NoToolManager), [request], [])
      else
        var rest := Rounds(Session(base, request.system, request.tools, manager.value), 0, response,
                           request.messages + [AssistantTurn(response.content)], Rest(script));
        Trace(rest.outcome, [request] + rest.requests, rest.calls)
  }
}
