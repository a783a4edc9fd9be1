# Bounded tool-calling loop of the course-materials assistant

This project models, in Dafny, the answer generator of a retrieval-augmented
course-materials chatbot (`AIGenerator` in `backend/ai_generator.py`). The
generator sends the user's query to a language-model service. When the model
answers with `stop_reason == "tool_use"`, the generator runs the requested
tools through a tool manager and asks again, for at most `MAX_TOOL_ROUNDS = 2`
rounds. It offers the tool catalog again only while another round remains. It
always ends with a string, except that a transport error from the model
service passes through unchanged. An `Exception` raised by a tool becomes an
error-flagged tool result.

The model has three layers:

- `Api` (`api.dfy`): the values that cross the boundaries. Response blocks are
  a tagged union `Text | ToolUse | Other`, which replaces the source's
  `hasattr`/`type` probing. The module also holds model responses, requests
  (`base` parameters, `messages`, `system`, optional `tools` and
  `tool_choice`), conversation turns, tool results, tool outcomes
  (`Ok(output) | Err(message)`) and the generator's `Outcome`
  (`Answer(text) | Raised(error)`).
- The outside world, as scripted objects:
  - `ModelService.ScriptedClient` (`model_service.dfy`) answers the n-th
    request with the n-th reply of its script and logs every request. A reply
    is a response or a transport `Failure`. An exhausted script raises.
  - `ToolManagement.ToolManager` (`tool_manager.dfy`) maps a tool name and
    arguments to an output or an exception and logs every call.
- The generator itself:
  - `Protocol` (`protocol.dfy`) gives the reference definition as pure
    functions. `Generate` describes a whole exchange as its outcome, the
    requests sent and the tool calls made. `Rounds` describes the rounds from
    a given round on.
  - `Generator.AIGenerator` (`ai_generator.dfy`) is the imperative version. It
    has the source's loop over rounds, an inner loop over blocks, an early
    `return` for a malformed response and a `break` on a text answer. Each
    method is proved to leave the client's request log, the client's script
    and the tool manager's call log exactly as `Generate`/`Rounds` say.
  - `Properties` (`properties.dfy`) proves what the protocol promises about
    `Generate` and `Rounds`.

The model follows the code where it is more specific than its comments:

- The round-exhaustion text comes from `_extract_text` applied to the last
  response. So after the rounds run out, the result is that text only when
  the last response's first block is a tool-use block. A last response that
  opens with a text block yields that text. `Properties.ExhaustedRounds`
  states both.
- The first response is checked for tool-use blocks only inside the round
  loop. So a malformed first response with no tool manager gets the
  "tool manager not configured" text, not the malformed-response text.

## Model

| member | source | states |
|---|---|---|
| `Protocol.ExtractText` | backend/ai_generator.py:102-111 | Only the first block counts. Empty content gives the empty-response text. A text block gives its text. A tool-use block gives the round-exhaustion text. Any other block gives the unexpected-format text. A result outside those three texts is always the first block's text. |
| `Protocol.SystemContent` | backend/ai_generator.py:73-77 | The system text always starts with the prompt. It equals the prompt exactly when there is no non-empty history. Otherwise the "Previous conversation" header and the history follow the prompt. |
| `Protocol.NewRequest` | backend/ai_generator.py:80-89 | A request keeps the shared parameters, messages and system text. It carries `tools` and `tool_choice` `auto` exactly when tools are offered and a non-empty catalog exists, and then `tools` is that catalog. |
| `Protocol.ToolUses` | backend/ai_generator.py:132-133 | The blocks a round acts on: no more than the response's blocks, and every one a tool-use block. |
| `Protocol.ToolResults` | backend/ai_generator.py:131-147 | A round produces exactly one tool result per tool-use block. |
| `Protocol.ToolCalls` | backend/ai_generator.py:132-135 | A round calls the tool manager exactly once per tool-use block. |
| `Protocol.Rounds` | backend/ai_generator.py:129-177 | The rounds from round `r` on send at most `MAX_TOOL_ROUNDS - r` requests. |
| `Protocol.Generate` | backend/ai_generator.py:54-100 | An exchange sends at least 1 and at most `1 + MAX_TOOL_ROUNDS` requests. The first request holds only the query, with the catalog when one is given. |
| `ModelService.ScriptedClient.Create` | backend/ai_generator.py:92 | The model service answers with the next scripted reply, or raises when none is left, and logs the request. |
| `ToolManagement.ToolManager.ExecuteTool` | backend/ai_generator.py:135 | A tool call returns what the tool returns or raises, and is logged. |
| `Generator.AIGenerator.constructor` | backend/ai_generator.py:43-52 | The shared parameters are the model name, temperature 0 and 800 max tokens. |
| `Generator.AIGenerator.GenerateResponse` | backend/ai_generator.py:54-100 | The answer, the requests added to the client's log, the replies consumed and the tool calls made are exactly those of `Generate`. |
| `Generator.AIGenerator.HandleToolExecution` | backend/ai_generator.py:113-177 | The round loop's result, requests, consumed replies and tool calls are exactly those of `Rounds` from round 0. |
| `Generator.AIGenerator.ExecuteToolCalls` | backend/ai_generator.py:130-147 | The inner loop returns `ToolResults` of the blocks and logs exactly `ToolCalls` of the blocks, in order. |
| `Generator.MalformedRound` | backend/ai_generator.py:149-150 | A round whose response has no tool-use block makes no tool call, sends no request and ends in the malformed-response text. |
| `Properties.ToolUsesOne` | backend/ai_generator.py:132-133 | A single block yields itself when it asks for a tool and nothing otherwise. |
| `Properties.ToolUsesAppend` | backend/ai_generator.py:132-133 | The tool-use blocks of two runs of blocks are those of the first followed by those of the second. With `ToolUsesOne`, this fixes both the order and how many times each block appears: one per tool-use block, in block order. |
| `Properties.ToolUsesSelect` | backend/ai_generator.py:132-133 | A block is among the tool-use blocks if and only if it is in the response and asks for a tool. There are none if and only if no block asks for one. |
| `Properties.ToolResultAt` | backend/ai_generator.py:134-147 | Result `i` answers tool-use block `i`: it has the block's id. On success its content is the tool's output and it is not flagged as an error. On an exception its content is "Error executing tool: " + message and it is flagged as an error. |
| `Properties.ToolCallAt` | backend/ai_generator.py:135 | Call `i` runs tool-use block `i`'s tool on that block's arguments. |
| `Properties.FinalFirstReply` | backend/ai_generator.py:92-100 | A first reply whose stop reason is not tool_use means one request, no tool call, and that reply's extracted text. |
| `Properties.MissingToolManager` | backend/ai_generator.py:95-98 | A tool_use first reply without a tool manager means one request, no tool call, and the "tool manager not configured" text. |
| `Properties.MalformedFirstReply` | backend/ai_generator.py:149-150 | A tool_use first reply with no tool-use block means one request, no tool call, and the malformed-response text. |
| `Properties.FailureTextsDistinct` | backend/ai_generator.py:104-111 | The empty-response, exhaustion, unexpected-format, missing-manager and malformed texts are pairwise distinct. |
| `Properties.RoundsToCompletion` | backend/ai_generator.py:129-177 | If every response still to be processed asks for tools, each round sends one request, and the rounds end with the last reply's extracted text. |
| `Properties.ExhaustedRounds` | backend/ai_generator.py:129-177 | If the first `MAX_TOOL_ROUNDS` replies all ask for tools, exactly `1 + MAX_TOOL_ROUNDS` requests are sent. The result is the last reply's extracted text, which is the exhaustion text when that reply opens with a tool-use block. |
| `Properties.RoundsStop` | backend/ai_generator.py:129-177 | Suppose replies `0..k-1` ask for tools with at least one tool-use block each, and reply `k` is still inside the rounds. Then the rounds send `k + 1` requests. They end with reply `k`'s text if it does not ask for tools. They end with the malformed-response text if it asks for tools with no tool-use block while another round remains. |
| `Properties.TextAnswerAfterRounds` | backend/ai_generator.py:167-177 | After `k` tool rounds (`k <= MAX_TOOL_ROUNDS`), a reply that does not ask for tools ends the exchange. There are `k + 1` requests, the answer is that reply's text, and the calls are the tools of the first `k` replies, in order. |
| `Properties.MalformedAfterRounds` | backend/ai_generator.py:149-150 | After `k` tool rounds (`k < MAX_TOOL_ROUNDS`), a tool_use reply with no tool-use block ends the exchange. There are `k + 1` requests, the answer is the malformed-response text, and the calls are the tools of the first `k` replies, in order. |
| `Properties.RoundsRequestShape` | backend/ai_generator.py:154-165 | Every round's request has the shared parameters and the first request's system text. It offers the first request's catalog exactly when another round remains after it. |
| `Properties.RequestShape` | backend/ai_generator.py:73-89 | Every request has the same parameters and the same system text. Request `i` has `tools` and `tool_choice` `auto` exactly when a non-empty catalog was given and `i < MAX_TOOL_ROUNDS`, so the last round's request never does. |
| `Properties.TranscriptShape` | backend/ai_generator.py:119-124 | A conversation after `k` rounds has length `2k + 1`. It opens with the query, then round `j`'s assistant turn and round `j`'s tool-result turn. |
| `Properties.TranscriptToolResultTurns` | backend/ai_generator.py:152 | A conversation after `k` rounds holds exactly `k` user turns of tool results. |
| `Properties.RoundsTranscript` | backend/ai_generator.py:123-175 | Request `i` of the rounds carries the conversation over every response processed so far. All replies before it asked for tools. |
| `Properties.ConversationAt` | backend/ai_generator.py:119-124 | Request `i` carries the query, then one assistant turn and one tool-result turn for each of the first `i` replies, and so exactly `i` tool-result turns. All those replies asked for tools. |
| `Properties.SecondRequestHoldsOneToolResultTurn` | backend/tests/test_ai_generator.py:77-96 | The second request holds exactly one tool-result turn: the query, the first response's assistant turn, then its tool results. |
| `Properties.TranscriptPrefix` | backend/ai_generator.py:152-175 | The conversation after fewer rounds is a prefix of the conversation after more. |
| `Properties.ResponsesPrefix` | backend/ai_generator.py:167-175 | The responses processed by an earlier request are a prefix of those processed by a later one. |
| `Properties.ConversationGrows` | backend/ai_generator.py:152-175 | Each request's messages extend the messages of every earlier request. |
| `Properties.RoundsCalls` | backend/ai_generator.py:129-147 | The rounds call the tools of the current response and then of every reply but the last, in order. |
| `Properties.ToolCallsMade` | backend/ai_generator.py:129-147 | The tool manager is called once per tool-use block, in block order, for every reply but the last. The last reply's tools never run. |
| `Properties.RoundsRaise` | backend/ai_generator.py:134-147 | The rounds raise exactly when the reply to their last request is a transport error. |
| `Properties.OnlyTransportErrorsEscape` | backend/ai_generator.py:67-69 | An exchange raises exactly when the reply to its last request is a transport error, and it raises that error unchanged. A tool's `Exception` never escapes. |
| `Properties.SearchThenAnswer` | backend/tests/test_ai_generator.py:77-96 | One search (`tu_42`) followed by a text answer returns "Final answer.". It makes one tool call and two requests, and the second request ends with one tool result for `tu_42`. |

## Left out

- Building the Anthropic client from an API key, and the network call itself.
  The client is handed to the constructor as a scripted model service. Its
  transport and authentication errors are `Failure` replies that come back as
  `Raised`. Nothing in this layer catches them.
- The prose of `SYSTEM_PROMPT` carries no logic. It is an opaque constant.
- The `model` request parameter is passed through unexamined.
- Tool arguments are modelled as a map from names to strings. JSON values of
  other types (such as a lesson number) are not distinguished.
- A successful tool result has no `is_error` key in the source. The model
  represents this as `isError == false`.
- Python passes the same `messages` list to the model service and then
  appends to it. The model records each request as a snapshot of the
  conversation at call time.
- `hasattr(first, "text")` is read as "the first block is a text block".
  Block kinds other than text and tool use are one `Other` case.
- The source catches `Exception` from a tool (backend/ai_generator.py:141).
  A `BaseException` that is not an `Exception`, such as `KeyboardInterrupt`
  or `SystemExit`, still escapes from a tool. The model has no such outcome:
  a tool either returns or raises an `Exception`. So "only transport errors
  escape" holds for `Exception`s only.
- The tool manager's behaviour is a fixed function of the tool name and
  arguments. Tools whose output depends on earlier calls (such as the
  last-sources record) are not modelled.
- The source's tool registry (looking up a tool by name) and the tools behind
  it (`CourseSearchTool` and the outline tool) are not part of this model.
  Neither are `VectorStore`, `RAGSystem` and `SessionManager`. `backend/tests/conftest.py`
  holds only test fixtures.
