/**
  Values exchanged between the answer generator, the language-model service
  and the tool manager: response blocks, model responses, request parameters,
  conversation turns and tool results.
 */
module Api {

  datatype Option<+T> = None | Some(value: T)

  /** Keyword arguments of a tool invocation, as the model service sends them. */
  type ToolInput = map<string, string>

  /** A tool schema offered to the model; the generator never looks inside it. */
  type ToolDef = string

  /** One block of a model response: text, a request to run a named tool, or anything else. */
  datatype Block =
    | Text(text: string)
    | ToolUse(name: string, input: ToolInput, id: string)
    | Other(kind: string)

  datatype ModelResponse = ModelResponse(stopReason: string, content: seq<Block>)

  /** What one request to the model service yields: a response, or a transport error it raises. */
  datatype Reply = Response(response: ModelResponse) | Failure(error: string)

  /** A tool_result record fed back to the model; a successful call carries no error flag. */
  datatype ToolResult = ToolResult(toolUseId: string, content: string, isError: bool)

  /** Turns of the conversation: the user's query, an assistant turn, a user turn of tool results. */
  datatype Message =
    | UserQuery(text: string)
    | AssistantTurn(content: seq<Block>)
    | ToolResultsTurn(results: seq<ToolResult>)

  /** The parameters every request shares: model name, temperature and token budget. */
  datatype BaseParams = BaseParams(model: string, temperature: int, maxTokens: int)

  datatype ToolChoice = Auto

  /** One request to the model service; absent `tools`/`tool_choice` keys are `None`. */
  datatype Request = Request(
    base: BaseParams,
    messages: seq<Message>,
    system: string,
    tools: Option<seq<ToolDef>>,
    toolChoice: Option<ToolChoice>)

  /** A call the generator made on the tool manager. */
  datatype ToolCall = ToolCall(name: string, input: ToolInput)

  /** A tool either returns its output or raises an exception with a message. */
  datatype ToolOutcome = Ok(output: string) | Err(message: string)

  /** The behaviour of a tool manager: what each call returns or raises. */
  type ToolFn = (string, ToolInput) -> ToolOutcome

  /** What generating a response ends in: the answer text, or a transport error passed through. */
  datatype Outcome = Answer(text: string) | Raised(error: string)
}
