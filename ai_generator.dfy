/**
  The answer generator: it sends a query to the model service and, when the
  model asks for tools, runs them through the tool manager for at most
  `MaxToolRounds` rounds, growing the conversation in place. Each method is
  proved to behave as the reference functions of `Protocol` say.
 */
module Generator {
  import opened Api
  import opened ModelService
  import opened ToolManagement
  import opened Protocol

  class AIGenerator {
    const client: ScriptedClient
    const model: string
    const baseParams: BaseParams

    /** The client is passed in rather than built from an API key. */
    constructor (client: ScriptedClient, model: string)
      ensures this.client == client && this.model == model
      ensures baseParams == BaseParams(model, Temperature, MaxTokens)
    {
      this.client := client;
      this.model := model;
      baseParams := BaseParams(model, Temperature, MaxTokens);
    }

    /**
      Answers `query`, offering `tools` to the model and running the tools it
      asks for through `manager` (none when `null`). A transport error from the
      model service comes back as `Raised`; tool errors never do.
     */
    method GenerateResponse(query: string, history: Option<string>, tools: Option<seq<ToolDef>>,
                            manager: ToolManager?) returns (out: Outcome)
      modifies client, manager
      ensures var t := Generate(baseParams, query, history, tools,
                                if manager == null then None else Some(manager.run), old(client.script));
              && out == t.outcome
              && client.requests == old(client.requests) + t.requests
              && client.script == Drop(old(client.script), |t.requests|)
              && (manager != null ==> manager.calls == old(manager.calls) + t.calls)
    {
      ghost var script := client.script;
      ghost var run := if manager == null then None else Some(manager.run);
      ghost var total := Generate(baseParams, query, history, tools, run, script);
      var system := SystemContent(history);
      var apiParams := NewRequest(baseParams, [UserQuery(query)], system, tools, true);
      var reply := client.Create(apiParams);
      assert client.script == Drop(script, 1);
      var response;
      match reply {
        case Failure(e) =>
          assert total == Trace(Raised(e), [apiParams], []);
          return Raised(e);
        case Response(r) =>
          response := r;
      }
      if response.stopReason == ToolUseStop {
        if manager != null {
          ghost var rest := Rounds(Session(baseParams, system, apiParams.tools, manager.run), 0, response,
                                   apiParams.messages + [AssistantTurn(response.content)], client.script);
          assert total
              == Trace(rest.outcome, [apiParams] + rest.requests, rest.calls);
          out := HandleToolExecution(response, apiParams, manager);
          DropDrop(script, 1, |rest.requests|);
          return;
        }
        assert total == Trace(Answer(NoToolManager), [apiParams], []);
        return Answer(NoToolManager);
      }
      assert total
          == Trace(Answer(ExtractText(response)), [apiParams], []);
      return Answer(ExtractText(response));
    }

    /**
      Runs the tools `initial` asks for, then keeps asking the model until it
      answers in text or the rounds are used up. The catalog is offered again
      only while another round remains.
     */
    method HandleToolExecution(initial: ModelResponse, initialParams: Request, manager: ToolManager)
      returns (out: Outcome)
      modifies client, manager
      ensures var t := Rounds(Session(baseParams, initialParams.system, initialParams.tools, manager.run), 0,
                              initial, initialParams.messages + [AssistantTurn(initial.content)],
                              old(client.script));
              && out == t.outcome
              && client.requests == old(client.requests) + t.requests
              && client.script == Drop(old(client.script), |t.requests|)
              && manager.calls == old(manager.calls) + t.calls
    {
      var messages := initialParams.messages + [AssistantTurn(initial.content)];
      var current := initial;
      var tools := initialParams.tools;
      ghost var s := Session(baseParams, initialParams.system, tools, manager.run);
      ghost var script := client.script;
      ghost var remaining := client.script;
      ghost var total := Rounds(s, 0, current, messages, remaining);
      ghost var issued: seq<Request> := [];
      ghost var made: seq<ToolCall> := [];
      assert Tracks(total, issued, made, total);
      assert total == Rounds(Session(baseParams, initialParams.system, initialParams.tools, manager.run), 0,
                             initial, initialParams.messages + [AssistantTurn(initial.content)], old(client.script));
      var roundNum := 0;
      while roundNum < MaxToolRounds
        invariant roundNum <= MaxToolRounds
        invariant client.requests == old(client.requests) + issued
        invariant manager.calls == old(manager.calls) + made
        invariant client.script == remaining == Drop(script, |issued|)
        invariant Tracks(Rounds(s, roundNum, current, messages, remaining), issued, made, total)
      {
        ghost var previous := current;
        ghost var calls := ToolCalls(current.content);
        var toolResults := ExecuteToolCalls(current.content, manager);
        Associative(old(manager.calls), made, calls);
        if toolResults == [] {
          MalformedExit(s, roundNum, current, messages, remaining, issued, made, total);
          return Answer(MalformedToolUse);
        }
        ghost var conversation := messages;
        messages := messages + [ToolResultsTurn(toolResults)];
        var allowAnotherRound := roundNum < MaxToolRounds - 1;
        var roundParams := NewRequest(baseParams, messages, initialParams.system, tools, allowAnotherRound);
        var reply := client.Create(roundParams);
        DropRest(script, |issued|);
        match reply {
          case Failure(e) =>
            StopRound(s, roundNum, previous, conversation, remaining, issued, made, total);
            Associative(old(client.requests), issued, [roundParams]);
            return Raised(e);
          case Response(r) =>
            current := r;
        }
        if current.stopReason != ToolUseStop {
          StopRound(s, roundNum, previous, conversation, remaining, issued, made, total);
        } else {
          ContinueRound(s, roundNum, previous, conversation, remaining, issued, made, total);
        }
        Associative(old(client.requests), issued, [roundParams]);
        issued := issued + [roundParams];
        made := made + calls;
        remaining := Rest(remaining);
        if current.stopReason != ToolUseStop {
          break;
        }
        messages := messages + [AssistantTurn(current.content)];
        roundNum := roundNum + 1;
      }
      if roundNum == MaxToolRounds {
        FinalRound(s, current, messages, remaining, issued, made, total);
      }
      return Answer(ExtractText(current));
    }

    /**
      Runs every tool-use block of `blocks` through `manager`, in order, and
      collects one result per block; an exception from a tool becomes an
      error-flagged result.
     */
    method ExecuteToolCalls(blocks: seq<Block>, manager: ToolManager) returns (results: seq<ToolResult>)
      modifies manager
      ensures results == ToolResults(blocks, manager.run)
      ensures manager.calls == old(manager.calls) + ToolCalls(blocks)
    {
      results := [];
      for i := 0 to |blocks|
        invariant results == ToolResults(blocks[..i], manager.run)
        invariant manager.calls == old(manager.calls) + ToolCalls(blocks[..i])
      {
        var block := blocks[i];
        assert blocks[..i + 1][..i] == blocks[..i];
        if block.ToolUse? {
          var outcome := manager.ExecuteTool(block.name, block.input);
          match outcome {
            case Ok(output) =>
              results := results + [ToolResult(block.id, output, false)];
            case Err(message) =>
              results := results + [ToolResult(block.id, ToolErrorPrefix + message, true)];
          }
        }
      }
      assert blocks[..|blocks|] == blocks;
    }
  }

  /** A round whose response holds no tool-use block makes no call and sends no request. */
  lemma MalformedRound(s: Session, round: nat, current: ModelResponse, messages: seq<Message>, script: seq<Reply>)
    requires round < MaxToolRounds && ToolResults(current.content, s.run) == []
    ensures ToolCalls(current.content) == []
    ensures Rounds(s, round, current, messages, script) == Trace(Answer(MalformedToolUse), [], [])
  {
  }

  /**
    Helper for the loop proof of `HandleToolExecution`: one unfolding of
    `Rounds` for a round that runs tools, with the grown conversation written
    as the loop builds it. What such rounds promise for a whole exchange is
    stated in `Properties` (`RoundsStop`, `TextAnswerAfterRounds`,
    `MalformedAfterRounds`, `ExhaustedRounds`).
   */
  lemma RequestRound(s: Session, round: nat, current: ModelResponse, messages: seq<Message>, script: seq<Reply>)
    requires round < MaxToolRounds && ToolResults(current.content, s.run) != []
    ensures var request := NewRequest(s.base, messages + [ToolResultsTurn(ToolResults(current.content, s.run))],
                                      s.system, s.tools, round < MaxToolRounds - 1);
            var calls := ToolCalls(current.content);
            var t := Rounds(s, round, current, messages, script);
            match NextReply(script)
            case Failure(e) => t == Trace(Raised(e), [request], calls)
            case Response(next) =>
              if next.stopReason != ToolUseStop then t == Trace(Answer(ExtractText(next)), [request], calls)
              else
                var rest := Rounds(s, round + 1, next, messages + [ToolResultsTurn(ToolResults(current.content, s.run)),
                                                                   AssistantTurn(next.content)], Rest(script));
                t == Trace(rest.outcome, [request] + rest.requests, calls + rest.calls)
  {
    var conversation := messages + [ToolResultsTurn(ToolResults(current.content, s.run))];
    match NextReply(script)
    case Failure(e) =>
    case Response(next) =>
      assert conversation + [AssistantTurn(next.content)]
          == messages + [ToolResultsTurn(ToolResults(current.content, s.run)), AssistantTurn(next.content)];
  }

  /** Helper: the rounds still to run, `t`, complete the requests and calls so far to those of `total`. */
  ghost predicate Tracks(t: Trace, issued: seq<Request>, made: seq<ToolCall>, total: Trace)
  {
    && t.outcome == total.outcome
    && issued + t.requests == total.requests
    && made + t.calls == total.calls
  }

  /** Helper: a round without tool-use blocks ends the exchange as it stands. */
  lemma MalformedExit(s: Session, round: nat, current: ModelResponse, messages: seq<Message>, script: seq<Reply>,
                      issued: seq<Request>, made: seq<ToolCall>, total: Trace)
    requires round < MaxToolRounds && ToolResults(current.content, s.run) == []
    requires Tracks(Rounds(s, round, current, messages, script), issued, made, total)
    ensures total == Trace(Answer(MalformedToolUse), issued, made + ToolCalls(current.content))
  {
    MalformedRound(s, round, current, messages, script);
    assert issued + [] == issued && made + [] == made;
  }

  /** Helper: a round whose reply is a transport error or a final answer ends the exchange after its request. */
  lemma StopRound(s: Session, round: nat, current: ModelResponse, messages: seq<Message>, script: seq<Reply>,
                  issued: seq<Request>, made: seq<ToolCall>, total: Trace)
    requires round < MaxToolRounds && ToolResults(current.content, s.run) != []
    requires NextReply(script).Response? ==> NextReply(script).response.stopReason != ToolUseStop
    requires Tracks(Rounds(s, round, current, messages, script), issued, made, total)
    ensures var request := NewRequest(s.base, messages + [ToolResultsTurn(ToolResults(current.content, s.run))],
                                      s.system, s.tools, round < MaxToolRounds - 1);
            && total.requests == issued + [request]
            && total.calls == made + ToolCalls(current.content)
            && (NextReply(script).Failure? ==> total.outcome == Raised(NextReply(script).error))
            && (NextReply(script).Response? ==> total.outcome == Answer(ExtractText(NextReply(script).response)))
  {
    RequestRound(s, round, current, messages, script);
  }

  /** Helper: a round whose reply asks for tools hands the rest of the exchange to the next round. */
  lemma ContinueRound(s: Session, round: nat, current: ModelResponse, messages: seq<Message>, script: seq<Reply>,
                      issued: seq<Request>, made: seq<ToolCall>, total: Trace)
    requires round < MaxToolRounds && ToolResults(current.content, s.run) != []
    requires NextReply(script).Response? && NextReply(script).response.stopReason == ToolUseStop
    requires Tracks(Rounds(s, round, current, messages, script), issued, made, total)
    ensures var next := NextReply(script).response;
            var conversation := messages + [ToolResultsTurn(ToolResults(current.content, s.run))];
            var request := NewRequest(s.base, conversation, s.system, s.tools, round < MaxToolRounds - 1);
            Tracks(Rounds(s, round + 1, next, conversation + [AssistantTurn(next.content)], Rest(script)),
                   issued + [request], made + ToolCalls(current.content), total)
  {
    var next := NextReply(script).response;
    var conversation := messages + [ToolResultsTurn(ToolResults(current.content, s.run))];
    var request := NewRequest(s.base, conversation, s.system, s.tools, round < MaxToolRounds - 1);
    var rest := Rounds(s, round + 1, next, conversation + [AssistantTurn(next.content)], Rest(script));
    RequestRound(s, round, current, messages, script);
    assert conversation + [AssistantTurn(next.content)]
        == messages + [ToolResultsTurn(ToolResults(current.content, s.run)), AssistantTurn(next.content)];
    Associative(issued, [request], rest.requests);
    Associative(made, ToolCalls(current.content), rest.calls);
  }

  /** Helper: once the rounds are used up, the exchange ends with the text of the latest response. */
  lemma FinalRound(s: Session, current: ModelResponse, messages: seq<Message>, script: seq<Reply>,
                   issued: seq<Request>, made: seq<ToolCall>, total: Trace)
    requires Tracks(Rounds(s, MaxToolRounds, current, messages, script), issued, made, total)
    ensures total == Trace(Answer(ExtractText(current)), issued, made)
  {
    assert issued + [] == issued && made + [] == made;
  }

  lemma Associative<T>(a: seq<T>, b: seq<T>, c: seq<T>)
    ensures (a + b) + c == a + (b + c)
  {
  }
}
