/**
  What the tool-calling protocol guarantees, stated over the reference
  functions `Protocol.Generate` and `Protocol.Rounds`: the exits, the bound on
  requests, the shape of every request, the conversation each request
  carries, the tool calls made, and which errors escape.
 */
module Properties {
  import opened Api
  import opened ModelService
  import opened Protocol

  /** The first request of every exchange. */
  function InitialRequest(base: BaseParams, query: string, history: Option<string>,
                          tools: Option<seq<ToolDef>>): Request
  {
    NewRequest(base, [UserQuery(query)], SystemContent(history), tools, true)
  }

  /**
    Helper: one unfolding of `Generate` when the first reply asks for tools
    and a tool manager is present, so that the lemmas below reason about the
    rounds alone.
   */
  lemma GenerateRounds(base: BaseParams, query: string, history: Option<string>,
                       tools: Option<seq<ToolDef>>, run: ToolFn, script: seq<Reply>)
    requires script != [] && script[0].Response? && script[0].response.stopReason == ToolUseStop
    ensures var request := InitialRequest(base, query, history, tools);
            var first := script[0].response;
            var rest := Rounds(Session(base, request.system, request.tools, run), 0, first,
                               request.messages + [AssistantTurn(first.content)], script[1..]);
            Generate(base, query, history, tools, Some(run), script)
              == Trace(rest.outcome, [request] + rest.requests, rest.calls)
  {
  }

  /** Helper: an exchange sends a second request only after a first reply that asked for tools. */
  lemma LaterRequests(base: BaseParams, query: string, history: Option<string>,
                      tools: Option<seq<ToolDef>>, manager: Option<ToolFn>, script: seq<Reply>)
    ensures |Generate(base, query, history, tools, manager, script).requests| > 1 ==>
              && script != [] && script[0].Response? && script[0].response.stopReason == ToolUseStop
              && manager.Some?
  {
  }

  // ---------------------------------------------------------------------------
  // One round of tool execution
  // ---------------------------------------------------------------------------

  /** A single block contributes itself when it asks for a tool, and nothing otherwise. */
  lemma ToolUsesOne(x: Block)
    ensures ToolUses([x]) == if x.ToolUse? then [x] else []
  {
    assert [x][..0] == [];
  }

  /**
    Selecting tool-use blocks distributes over concatenation; with `ToolUsesOne`
    this pins the selection down to the tool-use blocks in block order, each
    as many times as it occurs.
   */
  lemma {:induction false} ToolUsesAppend(a: seq<Block>, b: seq<Block>)
    ensures ToolUses(a + b) == ToolUses(a) + ToolUses(b)
    decreases |b|
  {
    if b == [] {
      assert a + b == a;
    } else {
      var init := b[..|b| - 1];
      ToolUsesAppend(a, init);
      assert (a + b)[..|a + b| - 1] == a + init;
      assert (a + b)[|a + b| - 1] == b[|b| - 1];
    }
  }

  /** A block is among the tool-use blocks exactly when it is in the response and asks for a tool. */
  lemma {:induction false} ToolUsesSelect(blocks: seq<Block>)
    ensures forall b :: b in ToolUses(blocks) <==> b in blocks && b.ToolUse?
    ensures ToolUses(blocks) == [] <==> forall b :: b in blocks ==> !b.ToolUse?
  {
    if blocks != [] {
      var init := blocks[..|blocks| - 1];
      ToolUsesSelect(init);
      assert blocks == init + [blocks[|blocks| - 1]];
    }
  }

  /**
    The `i`-th result of a round answers the `i`-th tool-use block: it carries
    that block's id, and either the tool's output unflagged or the error text
    of its exception flagged as an error.
   */
  lemma {:induction false} ToolResultAt(blocks: seq<Block>, run: ToolFn, i: nat)
    requires i < |ToolUses(blocks)|
    ensures var u := ToolUses(blocks)[i];
            var o := run(u.name, u.input);
            var r := ToolResults(blocks, run)[i];
            && r.toolUseId == u.id
            && (o.Ok? ==> r.content == o.output && !r.isError)
            && (o.Err? ==> r.content == ToolErrorPrefix + o.message && r.isError)
  {
    var init := blocks[..|blocks| - 1];
    if i < |ToolUses(init)| {
      ToolResultAt(init, run, i);
    }
  }

  /** The `i`-th call of a round runs the `i`-th tool-use block's tool on its arguments. */
  lemma {:induction false} ToolCallAt(blocks: seq<Block>, i: nat)
    requires i < |ToolUses(blocks)|
    ensures ToolCalls(blocks)[i] == ToolCall(ToolUses(blocks)[i].name, ToolUses(blocks)[i].input)
  {
    var init := blocks[..|blocks| - 1];
    if i < |ToolUses(init)| {
      ToolCallAt(init, i);
    }
  }

  // ---------------------------------------------------------------------------
  // Exits that end the exchange after the first request
  // ---------------------------------------------------------------------------

  /** A first reply that does not ask for tools is answered by its text, with no tool call. */
  lemma FinalFirstReply(base: BaseParams, query: string, history: Option<string>,
                        tools: Option<seq<ToolDef>>, manager: Option<ToolFn>, script: seq<Reply>)
    requires script != [] && script[0].Response? && script[0].response.stopReason != ToolUseStop
    ensures Generate(base, query, history, tools, manager, script)
         == Trace(Answer(ExtractText(script[0].response)), [InitialRequest(base, query, history, tools)], [])
  {
  }

  /** Asking for tools without a tool manager ends in the fallback text, with no tool call. */
  lemma MissingToolManager(base: BaseParams, query: string, history: Option<string>,
                           tools: Option<seq<ToolDef>>, script: seq<Reply>)
    requires script != [] && script[0].Response? && script[0].response.stopReason == ToolUseStop
    ensures Generate(base, query, history, tools, None, script)
         == Trace(Answer(NoToolManager), [InitialRequest(base, query, history, tools)], [])
  {
  }

  /** A first tool_use reply with no tool-use block ends the exchange at once. */
  lemma MalformedFirstReply(base: BaseParams, query: string, history: Option<string>,
                            tools: Option<seq<ToolDef>>, run: ToolFn, script: seq<Reply>)
    requires script != [] && script[0].Response? && script[0].response.stopReason == ToolUseStop
    requires forall b :: b in script[0].response.content ==> !b.ToolUse?
    ensures Generate(base, query, history, tools, Some(run), script)
         == Trace(Answer(MalformedToolUse), [InitialRequest(base, query, history, tools)], [])
  {
    ToolUsesSelect(script[0].response.content);
  }

  /** The fixed failure texts are pairwise distinct, so a caller can tell the failures apart. */
  lemma FailureTextsDistinct()
    ensures |{EmptyResponse, RoundsExhausted, UnexpectedFormat, NoToolManager, MalformedToolUse}| == 5
  {
  }

  // ---------------------------------------------------------------------------
  // Running out of rounds
  // ---------------------------------------------------------------------------

  /**
    When every response still to be processed asks for tools (with at least
    one tool-use block) and the reply after the last round is a response, the
    rounds from `round` on send one request each and end with the text of
    that last response.
   */
  lemma {:induction false} RoundsToCompletion(s: Session, round: nat, current: ModelResponse,
                                              messages: seq<Message>, script: seq<Reply>)
    requires round <= MaxToolRounds
    requires round < MaxToolRounds ==> ToolUses(current.content) != []
    requires MaxToolRounds - round <= |script|
    requires forall j :: 0 <= j < MaxToolRounds - round - 1 ==>
               && script[j].Response?
               && script[j].response.stopReason == ToolUseStop
               && ToolUses(script[j].response.content) != []
    requires round < MaxToolRounds ==> script[MaxToolRounds - round - 1].Response?
    ensures var t := Rounds(s, round, current, messages, script);
            var last := if round == MaxToolRounds then current else script[MaxToolRounds - round - 1].response;
            |t.requests| == MaxToolRounds - round && t.outcome == Answer(ExtractText(last))
    decreases MaxToolRounds - round
  {
    if round < MaxToolRounds {
      var results := ToolResults(current.content, s.run);
      var next := script[0].response;
      var conversation := messages + [ToolResultsTurn(results)];
      if next.stopReason == ToolUseStop {
        RoundsToCompletion(s, round + 1, next, conversation + [AssistantTurn(next.content)], script[1..]);
      }
    }
  }

  /**
    If the first `MaxToolRounds` replies all ask for tools, the exchange sends
    exactly `1 + MaxToolRounds` requests and answers with the text of the last
    reply, which is the round-exhaustion text when that reply opens with a
    tool-use block.
   */
  lemma ExhaustedRounds(base: BaseParams, query: string, history: Option<string>,
                        tools: Option<seq<ToolDef>>, run: ToolFn, script: seq<Reply>)
    requires |script| > MaxToolRounds
    requires forall j :: 0 <= j < MaxToolRounds ==>
               && script[j].Response?
               && script[j].response.stopReason == ToolUseStop
               && ToolUses(script[j].response.content) != []
    requires script[MaxToolRounds].Response?
    ensures var t := Generate(base, query, history, tools, Some(run), script);
            var last := script[MaxToolRounds].response;
            && |t.requests| == 1 + MaxToolRounds
            && t.outcome == Answer(ExtractText(last))
            && (last.content != [] && last.content[0].ToolUse? ==> t.outcome == Answer(RoundsExhausted))
  {
    var request := InitialRequest(base, query, history, tools);
    var first := script[0].response;
    RoundsToCompletion(Session(base, request.system, request.tools, run), 0, first,
                       request.messages + [AssistantTurn(first.content)], script[1..]);
  }

  // ---------------------------------------------------------------------------
  // Ending before the rounds run out
  // ---------------------------------------------------------------------------

  /**
    When the first `k` replies ask for tools (with at least one tool-use block
    each) and reply `k` is still inside the rounds, the rounds from `round` on
    stop at reply `k`, having sent `k + 1` requests: with its text when it
    does not ask for tools, and with the malformed-response text when it asks
    for tools without a tool-use block while another round remains.
   */
  lemma {:induction false} RoundsStop(s: Session, round: nat, current: ModelResponse,
                                      messages: seq<Message>, script: seq<Reply>, k: nat)
    requires round + k < MaxToolRounds
    requires ToolUses(current.content) != []
    requires k < |script|
    requires forall j :: 0 <= j < k ==>
               && script[j].Response?
               && script[j].response.stopReason == ToolUseStop
               && ToolUses(script[j].response.content) != []
    requires script[k].Response?
    ensures var t := Rounds(s, round, current, messages, script);
            var stop := script[k].response;
            var calls := ToolCalls(current.content) + AllCalls(Responses(script[..k]));
            && (stop.stopReason != ToolUseStop ==>
                  |t.requests| == k + 1 && t.outcome == Answer(ExtractText(stop)) && t.calls == calls)
            && (stop.stopReason == ToolUseStop && ToolUses(stop.content) == [] && round + k + 1 < MaxToolRounds ==>
                  |t.requests| == k + 1 && t.outcome == Answer(MalformedToolUse) && t.calls == calls)
    decreases k
  {
    var results := ToolResults(current.content, s.run);
    var conversation := messages + [ToolResultsTurn(results)];
    var next := script[0].response;
    var rest := Rounds(s, round + 1, next, conversation + [AssistantTurn(next.content)], Rest(script));
    if k == 0 {
      assert Responses(script[..0]) == [];
      if next.stopReason == ToolUseStop && ToolUses(next.content) == [] && round + 1 < MaxToolRounds {
        assert rest == Trace(Answer(MalformedToolUse), [], []);
      }
    } else {
      RoundsStop(s, round + 1, next, conversation + [AssistantTurn(next.content)], Rest(script), k - 1);
      assert Rest(script)[k - 1] == script[k];
      ResponsesCons(script, k);
      assert AllCalls(Responses(script[..k])) == ToolCalls(next.content) + AllCalls(Responses(Rest(script)[..k - 1]));
    }
  }

  /**
    After `k` rounds of tool use, a reply that does not ask for tools ends the
    exchange: `k + 1` requests, its text as the answer, and the tools of the
    first `k` replies as the calls made.
   */
  lemma TextAnswerAfterRounds(base: BaseParams, query: string, history: Option<string>,
                              tools: Option<seq<ToolDef>>, run: ToolFn, script: seq<Reply>, k: nat)
    requires k <= MaxToolRounds && k < |script|
    requires forall j :: 0 <= j < k ==>
               && script[j].Response?
               && script[j].response.stopReason == ToolUseStop
               && ToolUses(script[j].response.content) != []
    requires script[k].Response? && script[k].response.stopReason != ToolUseStop
    ensures var t := Generate(base, query, history, tools, Some(run), script);
            && |t.requests| == k + 1
            && t.outcome == Answer(ExtractText(script[k].response))
            && t.calls == AllCalls(Responses(script[..k]))
  {
    if k == 0 {
      assert script[..0] == [];
    } else {
      var request := InitialRequest(base, query, history, tools);
      var first := script[0].response;
      var s := Session(base, request.system, request.tools, run);
      var messages := request.messages + [AssistantTurn(first.content)];
      var later := script[1..];
      assert ToolUses(first.content) != [];
      assert later[k - 1] == script[k];
      forall j | 0 <= j < k - 1
        ensures later[j].Response? && later[j].response.stopReason == ToolUseStop
        ensures ToolUses(later[j].response.content) != []
      {
        assert later[j] == script[j + 1];
      }
      GenerateRounds(base, query, history, tools, run, script);
      RoundsStop(s, 0, first, messages, later, k - 1);
      ResponsesCons(script, k);
    }
  }

  /**
    After `k` rounds of tool use, a reply that asks for tools without naming
    any, while another round remains, ends the exchange: `k + 1` requests,
    the malformed-response text, and the tools of the first `k` replies as
    the calls made.
   */
  lemma MalformedAfterRounds(base: BaseParams, query: string, history: Option<string>,
                             tools: Option<seq<ToolDef>>, run: ToolFn, script: seq<Reply>, k: nat)
    requires k < MaxToolRounds && k < |script|
    requires forall j :: 0 <= j < k ==>
               && script[j].Response?
               && script[j].response.stopReason == ToolUseStop
               && ToolUses(script[j].response.content) != []
    requires script[k].Response? && script[k].response.stopReason == ToolUseStop
    requires ToolUses(script[k].response.content) == []
    ensures var t := Generate(base, query, history, tools, Some(run), script);
            && |t.requests| == k + 1
            && t.outcome == Answer(MalformedToolUse)
            && t.calls == AllCalls(Responses(script[..k]))
  {
    if k == 0 {
      assert script[..0] == [];
    } else {
      var request := InitialRequest(base, query, history, tools);
      var first := script[0].response;
      var s := Session(base, request.system, request.tools, run);
      var messages := request.messages + [AssistantTurn(first.content)];
      var later := script[1..];
      assert ToolUses(first.content) != [];
      assert later[k - 1] == script[k];
      GenerateRounds(base, query, history, tools, run, script);
      RoundsStop(s, 0, first, messages, later, k - 1);
      ResponsesCons(script, k);
    }
  }

  // ---------------------------------------------------------------------------
  // The shape of every request
  // ---------------------------------------------------------------------------

  /** A request on the given parameters and system text, carrying the catalog exactly when `offer` holds. */
  predicate Shaped(r: Request, base: BaseParams, system: string, tools: Option<seq<ToolDef>>, offer: bool)
  {
    && r.base == base
    && r.system == system
    && (r.tools.Some? <==> offer && Offered(tools))
    && (r.tools.Some? ==> r.tools == tools && r.toolChoice == Some(Auto))
    && (r.tools.None? ==> r.toolChoice.None?)
  }

  /** The request of round `round + i` offers the catalog only while another round remains after it. */
  lemma {:induction false} RoundsRequestShape(s: Session, round: nat, current: ModelResponse,
                                              messages: seq<Message>, script: seq<Reply>, i: nat)
    requires round <= MaxToolRounds
    requires i < |Rounds(s, round, current, messages, script).requests|
    ensures Shaped(Rounds(s, round, current, messages, script).requests[i],
                   s.base, s.system, s.tools, round + i < MaxToolRounds - 1)
    decreases MaxToolRounds - round
  {
    var conversation := messages + [ToolResultsTurn(ToolResults(current.content, s.run))];
    if i > 0 {
      var next := NextReply(script).response;
      RoundsRequestShape(s, round + 1, next, conversation + [AssistantTurn(next.content)], Rest(script), i - 1);
    }
  }

  /**
    Every request carries the same parameters and system text; request `i`
    carries the catalog, with automatic tool choice, exactly when a non-empty
    catalog was given and `i < MaxToolRounds` — so the request of the last
    round never does.
   */
  lemma RequestShape(base: BaseParams, query: string, history: Option<string>,
                     tools: Option<seq<ToolDef>>, manager: Option<ToolFn>, script: seq<Reply>)
    ensures var t := Generate(base, query, history, tools, manager, script);
            forall i :: 0 <= i < |t.requests| ==>
              Shaped(t.requests[i], base, SystemContent(history), tools, i < MaxToolRounds)
  {
    var t := Generate(base, query, history, tools, manager, script);
    var request := InitialRequest(base, query, history, tools);
    assert Shaped(t.requests[0], base, SystemContent(history), tools, 0 < MaxToolRounds);
    if NextReply(script).Response? && NextReply(script).response.stopReason == ToolUseStop && manager.Some? {
      var response := NextReply(script).response;
      var s := Session(base, request.system, request.tools, manager.value);
      var messages := request.messages + [AssistantTurn(response.content)];
      var rest := Rounds(s, 0, response, messages, Rest(script));
      assert t.requests == [request] + rest.requests;
      assert s.system == SystemContent(history);
      assert Offered(s.tools) <==> Offered(tools);
      assert Offered(s.tools) ==> s.tools == tools;
      forall i | 1 <= i < |t.requests|
        ensures Shaped(t.requests[i], base, SystemContent(history), tools, i < MaxToolRounds)
      {
        assert t.requests[i] == rest.requests[i - 1];
        RoundsRequestShape(s, 0, response, messages, Rest(script), i - 1);
      }
    }
  }

  // ---------------------------------------------------------------------------
  // The conversation each request carries
  // ---------------------------------------------------------------------------

  /** The responses of a run of replies that are all responses. */
  function Responses(replies: seq<Reply>): (rs: seq<ModelResponse>)
    requires forall j :: 0 <= j < |replies| ==> replies[j].Response?
    ensures |rs| == |replies|
  {
    if replies == [] then [] else [replies[0].response] + Responses(replies[1..])
  }

  /**
    The conversation after some rounds: the query, then for each round the
    assistant turn of its response and the user turn of its tool results.
   */
  function Transcript(query: string, rounds: seq<ModelResponse>, run: ToolFn): seq<Message>
  {
    if rounds == [] then [UserQuery(query)]
    else
      var r := rounds[|rounds| - 1];
      Transcript(query, rounds[..|rounds| - 1], run)
        + [AssistantTurn(r.content), ToolResultsTurn(ToolResults(r.content, run))]
  }

  /** The number of user turns of tool results in a conversation. */
  function ToolResultTurns(messages: seq<Message>): nat
  {
    if messages == [] then 0
    else ToolResultTurns(messages[..|messages| - 1]) + (if messages[|messages| - 1].ToolResultsTurn? then 1 else 0)
  }

  /** A transcript opens with the query and holds one assistant turn and one tool-result turn per round. */
  lemma {:induction false} TranscriptShape(query: string, rounds: seq<ModelResponse>, run: ToolFn)
    ensures var m := Transcript(query, rounds, run);
            && |m| == 2 * |rounds| + 1
            && m[0] == UserQuery(query)
            && forall k :: 0 <= k < |rounds| ==>
                 m[2 * k + 1] == AssistantTurn(rounds[k].content)
                 && m[2 * k + 2] == ToolResultsTurn(ToolResults(rounds[k].content, run))
  {
    if rounds != [] {
      var init := rounds[..|rounds| - 1];
      TranscriptShape(query, init, run);
      var m := Transcript(query, rounds, run);
      var previous := Transcript(query, init, run);
      assert m == previous + [AssistantTurn(rounds[|rounds| - 1].content),
                              ToolResultsTurn(ToolResults(rounds[|rounds| - 1].content, run))];
      forall k | 0 <= k < |rounds| - 1
        ensures m[2 * k + 1] == AssistantTurn(rounds[k].content)
        ensures m[2 * k + 2] == ToolResultsTurn(ToolResults(rounds[k].content, run))
      {
        assert m[2 * k + 1] == previous[2 * k + 1] && m[2 * k + 2] == previous[2 * k + 2];
        assert init[k] == rounds[k];
      }
    }
  }

  /** A transcript holds exactly one user turn of tool results per round. */
  lemma {:induction false} TranscriptToolResultTurns(query: string, rounds: seq<ModelResponse>, run: ToolFn)
    ensures ToolResultTurns(Transcript(query, rounds, run)) == |rounds|
  {
    if rounds != [] {
      var init := rounds[..|rounds| - 1];
      var r := rounds[|rounds| - 1];
      TranscriptToolResultTurns(query, init, run);
      var m := Transcript(query, rounds, run);
      var previous := Transcript(query, init, run);
      assert m[..|m| - 1] == previous + [AssistantTurn(r.content)];
      assert m[..|m| - 1][..|m| - 2] == previous;
    }
  }

  /** Helper: the responses of a prefix, one reply at a time from the front. */
  lemma ResponsesCons(script: seq<Reply>, i: nat)
    requires 1 <= i <= |script|
    requires forall j :: 0 <= j < i ==> script[j].Response?
    ensures Responses(script[..i]) == [script[0].response] + Responses(script[1..][..i - 1])
  {
    assert script[..i][1..] == script[1..][..i - 1];
  }

  /** Helper: the rounds send request `i` only after `i` replies that all asked for tools. */
  lemma {:induction false} RoundsReplies(s: Session, round: nat, current: ModelResponse,
                                         messages: seq<Message>, script: seq<Reply>, i: nat)
    requires round <= MaxToolRounds
    requires i < |Rounds(s, round, current, messages, script).requests|
    ensures i <= |script|
    ensures forall j :: 0 <= j < i ==> script[j].Response? && script[j].response.stopReason == ToolUseStop
    decreases MaxToolRounds - round
  {
    if i > 0 {
      var conversation := messages + [ToolResultsTurn(ToolResults(current.content, s.run))];
      var next := NextReply(script).response;
      RoundsReplies(s, round + 1, next, conversation + [AssistantTurn(next.content)], Rest(script), i - 1);
    }
  }

  /**
    Request `i` of the rounds from `round` on carries the transcript of every
    response processed so far: the earlier ones, `current`, and the first `i`
    replies, all of which asked for tools.
   */
  lemma {:induction false} RoundsTranscript(s: Session, round: nat, current: ModelResponse, query: string,
                                            earlier: seq<ModelResponse>, script: seq<Reply>, i: nat)
    requires round <= MaxToolRounds
    requires i < |Rounds(s, round, current, Transcript(query, earlier, s.run) + [AssistantTurn(current.content)], script).requests|
    ensures i <= |script|
    ensures forall j :: 0 <= j < i ==> script[j].Response? && script[j].response.stopReason == ToolUseStop
    ensures Rounds(s, round, current, Transcript(query, earlier, s.run) + [AssistantTurn(current.content)], script).requests[i].messages
         == Transcript(query, earlier + [current] + Responses(script[..i]), s.run)
    decreases MaxToolRounds - round
  {
    var messages := Transcript(query, earlier, s.run) + [AssistantTurn(current.content)];
    var results := ToolResults(current.content, s.run);
    var conversation := messages + [ToolResultsTurn(results)];
    var done := earlier + [current];
    assert done[..|done| - 1] == earlier;
    assert conversation == Transcript(query, done, s.run);
    RoundsReplies(s, round, current, messages, script, i);
    if i == 0 {
      assert Responses(script[..0]) == [];
      assert done + [] == done;
    } else {
      var next := NextReply(script).response;
      RoundsTranscript(s, round + 1, next, query, done, Rest(script), i - 1);
      ResponsesCons(script, i);
      assert done + [next] + Responses(Rest(script)[..i - 1]) == done + Responses(script[..i]);
    }
  }

  /** Helper: an exchange sends request `i` only after `i` replies that all asked for tools. */
  lemma RepliesBefore(base: BaseParams, query: string, history: Option<string>,
                      tools: Option<seq<ToolDef>>, manager: Option<ToolFn>, script: seq<Reply>, i: nat)
    requires i < |Generate(base, query, history, tools, manager, script).requests|
    ensures i <= |script|
    ensures forall j :: 0 <= j < i ==> script[j].Response? && script[j].response.stopReason == ToolUseStop
  {
    if i > 0 {
      LaterRequests(base, query, history, tools, manager, script);
      var request := InitialRequest(base, query, history, tools);
      var first := script[0].response;
      var later := script[1..];
      var s := Session(base, request.system, request.tools, manager.value);
      GenerateRounds(base, query, history, tools, manager.value, script);
      RoundsReplies(s, 0, first, request.messages + [AssistantTurn(first.content)], later, i - 1);
      forall j | 0 <= j < i
        ensures script[j].Response? && script[j].response.stopReason == ToolUseStop
      {
        if j > 0 {
          assert script[j] == later[j - 1];
        }
      }
    }
  }

  /**
    Request `i` carries the query followed by one assistant turn and one
    tool-result turn for each of the first `i` replies, all of which asked for
    tools; it therefore holds exactly `i` tool-result turns.
   */
  lemma ConversationAt(base: BaseParams, query: string, history: Option<string>,
                       tools: Option<seq<ToolDef>>, run: ToolFn, script: seq<Reply>, i: nat)
    requires i < |Generate(base, query, history, tools, Some(run), script).requests|
    ensures i <= |script|
    ensures forall j :: 0 <= j < i ==> script[j].Response? && script[j].response.stopReason == ToolUseStop
    ensures Generate(base, query, history, tools, Some(run), script).requests[i].messages
         == Transcript(query, Responses(script[..i]), run)
    ensures ToolResultTurns(Generate(base, query, history, tools, Some(run), script).requests[i].messages) == i
  {
    RepliesBefore(base, query, history, tools, Some(run), script, i);
    if i == 0 {
      assert Responses(script[..0]) == [];
    } else {
      LaterConversation(base, query, history, tools, run, script, i);
    }
    TranscriptToolResultTurns(query, Responses(script[..i]), run);
  }

  /** Helper: `ConversationAt` for the requests after the first, through the rounds. */
  lemma LaterConversation(base: BaseParams, query: string, history: Option<string>,
                          tools: Option<seq<ToolDef>>, run: ToolFn, script: seq<Reply>, i: nat)
    requires 0 < i < |Generate(base, query, history, tools, Some(run), script).requests|
    requires i <= |script|
    requires forall j :: 0 <= j < i ==> script[j].Response? && script[j].response.stopReason == ToolUseStop
    ensures Generate(base, query, history, tools, Some(run), script).requests[i].messages
         == Transcript(query, Responses(script[..i]), run)
  {
    var request := InitialRequest(base, query, history, tools);
    var response := script[0].response;
    var s := Session(base, request.system, request.tools, run);
    var later := script[1..];
    var rest := Rounds(s, 0, response, request.messages + [AssistantTurn(response.content)], later);
    assert request.messages == Transcript(query, [], run);
    GenerateRounds(base, query, history, tools, run, script);
    RoundsTranscript(s, 0, response, query, [], later, i - 1);
    ResponsesCons(script, i);
  }

  /** The second request holds exactly one user turn of tool results, the first round's. */
  lemma SecondRequestHoldsOneToolResultTurn(base: BaseParams, query: string, history: Option<string>,
                                            tools: Option<seq<ToolDef>>, run: ToolFn, script: seq<Reply>)
    ensures var t := Generate(base, query, history, tools, Some(run), script);
            |t.requests| >= 2 ==>
              && ToolResultTurns(t.requests[1].messages) == 1
              && t.requests[1].messages == [UserQuery(query), AssistantTurn(script[0].response.content),
                                            ToolResultsTurn(ToolResults(script[0].response.content, run))]
  {
    var t := Generate(base, query, history, tools, Some(run), script);
    if |t.requests| >= 2 {
      ConversationAt(base, query, history, tools, run, script, 1);
      assert Responses(script[..1]) == [script[0].response];
      assert [script[0].response][..0] == [];
    }
  }

  /** The transcript of fewer rounds is a prefix of the transcript of more. */
  lemma {:induction false} TranscriptPrefix(query: string, rounds: seq<ModelResponse>, run: ToolFn, k: nat)
    requires k <= |rounds|
    ensures Transcript(query, rounds[..k], run) <= Transcript(query, rounds, run)
    decreases |rounds|
  {
    if k < |rounds| {
      var init := rounds[..|rounds| - 1];
      TranscriptPrefix(query, init, run, k);
      assert init[..k] == rounds[..k];
    } else {
      assert rounds[..k] == rounds;
    }
  }

  /** The responses of a shorter prefix of replies are a prefix of those of a longer one. */
  lemma {:induction false} ResponsesPrefix(script: seq<Reply>, i: nat, j: nat)
    requires i <= j <= |script|
    requires forall k :: 0 <= k < j ==> script[k].Response?
    ensures Responses(script[..i]) == Responses(script[..j])[..i]
  {
    if i > 0 {
      ResponsesCons(script, i);
      ResponsesCons(script, j);
      ResponsesPrefix(script[1..], i - 1, j - 1);
      assert script[1..][..i - 1] == script[..i][1..];
    }
  }

  /** The conversation only grows: each request's messages extend those of every earlier request. */
  lemma ConversationGrows(base: BaseParams, query: string, history: Option<string>,
                          tools: Option<seq<ToolDef>>, run: ToolFn, script: seq<Reply>, i: nat, j: nat)
    requires i <= j < |Generate(base, query, history, tools, Some(run), script).requests|
    ensures var t := Generate(base, query, history, tools, Some(run), script);
            t.requests[i].messages <= t.requests[j].messages
  {
    ConversationAt(base, query, history, tools, run, script, i);
    ConversationAt(base, query, history, tools, run, script, j);
    ResponsesPrefix(script, i, j);
    TranscriptPrefix(query, Responses(script[..j]), run, i);
  }

  // ---------------------------------------------------------------------------
  // Tool calls
  // ---------------------------------------------------------------------------

  /** The calls made for a run of responses, round after round. */
  function AllCalls(rounds: seq<ModelResponse>): seq<ToolCall>
  {
    if rounds == [] then [] else ToolCalls(rounds[0].content) + AllCalls(rounds[1..])
  }

  /** The rounds from `round` on call the tools of `current` and of every reply but the last. */
  lemma {:induction false} RoundsCalls(s: Session, round: nat, current: ModelResponse,
                                       messages: seq<Message>, script: seq<Reply>)
    requires round <= MaxToolRounds
    ensures var t := Rounds(s, round, current, messages, script);
            && (|t.requests| == 0 ==> t.calls == [])
            && (|t.requests| > 0 ==>
                  && |t.requests| - 1 <= |script|
                  && (forall j :: 0 <= j < |t.requests| - 1 ==> script[j].Response?)
                  && t.calls == ToolCalls(current.content) + AllCalls(Responses(script[..|t.requests| - 1])))
    decreases MaxToolRounds - round
  {
    if round < MaxToolRounds && ToolResults(current.content, s.run) != [] {
      var t := Rounds(s, round, current, messages, script);
      var calls := ToolCalls(current.content);
      var conversation := messages + [ToolResultsTurn(ToolResults(current.content, s.run))];
      match NextReply(script)
      case Failure(_) =>
        assert Responses(script[..0]) == [];
      case Response(next) =>
        if next.stopReason != ToolUseStop {
          assert Responses(script[..0]) == [];
        } else {
          var rest := Rounds(s, round + 1, next, conversation + [AssistantTurn(next.content)], Rest(script));
          RoundsCalls(s, round + 1, next, conversation + [AssistantTurn(next.content)], Rest(script));
          var n := |t.requests| - 1;
          assert n == |rest.requests|;
          if n == 0 {
            assert Responses(script[..0]) == [];
          } else {
            ResponsesCons(script, n);
            assert AllCalls(Responses(script[..n]))
                == ToolCalls(next.content) + AllCalls(Responses(Rest(script)[..n - 1]));
          }
        }
    }
  }

  /**
    The tool manager is called once per tool-use block, in block order, for
    every reply but the last: the tools of the final reply are never run.
   */
  lemma ToolCallsMade(base: BaseParams, query: string, history: Option<string>,
                      tools: Option<seq<ToolDef>>, run: ToolFn, script: seq<Reply>)
    ensures var t := Generate(base, query, history, tools, Some(run), script);
            && |t.requests| - 1 <= |script|
            && (forall j :: 0 <= j < |t.requests| - 1 ==> script[j].Response?)
            && t.calls == AllCalls(Responses(script[..|t.requests| - 1]))
  {
    var t := Generate(base, query, history, tools, Some(run), script);
    var request := InitialRequest(base, query, history, tools);
    assert Responses(script[..0]) == [];
    match NextReply(script)
    case Failure(_) =>
    case Response(response) =>
      if response.stopReason == ToolUseStop {
        var s := Session(base, request.system, request.tools, run);
        var messages := request.messages + [AssistantTurn(response.content)];
        RoundsCalls(s, 0, response, messages, Rest(script));
        var n := |t.requests| - 1;
        if n > 0 {
          ResponsesCons(script, n);
        }
      }
  }

  // ---------------------------------------------------------------------------
  // Which errors escape
  // ---------------------------------------------------------------------------

  /** The rounds from `round` on raise exactly when the reply to their last request is a transport error. */
  lemma {:induction false} RoundsRaise(s: Session, round: nat, current: ModelResponse,
                                       messages: seq<Message>, script: seq<Reply>)
    requires round <= MaxToolRounds
    ensures var t := Rounds(s, round, current, messages, script);
            && (t.outcome.Raised? ==> |t.requests| >= 1)
            && (|t.requests| >= 1 ==>
                  var last := ReplyAt(script, |t.requests| - 1);
                  && (t.outcome.Raised? <==> last.Failure?)
                  && (t.outcome.Raised? ==> t.outcome.error == last.error))
    decreases MaxToolRounds - round
  {
    if round < MaxToolRounds && ToolResults(current.content, s.run) != [] {
      var conversation := messages + [ToolResultsTurn(ToolResults(current.content, s.run))];
      match NextReply(script)
      case Failure(_) =>
      case Response(next) =>
        if next.stopReason == ToolUseStop {
          RoundsRaise(s, round + 1, next, conversation + [AssistantTurn(next.content)], Rest(script));
        }
    }
  }

  /**
    The exchange raises exactly when the reply to its last request is a
    transport error, and then raises that error unchanged; a tool that fails
    never makes it raise.
   */
  lemma OnlyTransportErrorsEscape(base: BaseParams, query: string, history: Option<string>,
                                  tools: Option<seq<ToolDef>>, manager: Option<ToolFn>, script: seq<Reply>)
    ensures var t := Generate(base, query, history, tools, manager, script);
            var last := ReplyAt(script, |t.requests| - 1);
            && (t.outcome.Raised? <==> last.Failure?)
            && (t.outcome.Raised? ==> t.outcome.error == last.error)
  {
    var request := InitialRequest(base, query, history, tools);
    match NextReply(script)
    case Failure(_) =>
    case Response(response) =>
      if response.stopReason == ToolUseStop && manager.Some? {
        var s := Session(base, request.system, request.tools, manager.value);
        RoundsRaise(s, 0, response, request.messages + [AssistantTurn(response.content)], Rest(script));
      }
  }

  // ---------------------------------------------------------------------------
  // A concrete exchange
  // ---------------------------------------------------------------------------

  /**
    One search, then a text answer: the answer is returned, the tool manager is
    called once, and the second request ends with one tool-result turn for
    block "tu_42".
   */
  lemma SearchThenAnswer(base: BaseParams, query: string, history: Option<string>, tools: Option<seq<ToolDef>>)
    ensures var search := ToolUse("search_course_content", map["query" := "test"], "tu_42");
            var run: ToolFn := (name, input) => Ok("Search results: Python is great.");
            var script := [Response(ModelResponse(ToolUseStop, [search])),
                           Response(ModelResponse("end_turn", [Text("Final answer.")]))];
            var t := Generate(base, query, history, tools, Some(run), script);
            && t.outcome == Answer("Final answer.")
            && |t.requests| == 2
            && t.calls == [ToolCall("search_course_content", map["query" := "test"])]
            && t.requests[1].messages
               == [UserQuery(query), AssistantTurn([search]),
                   ToolResultsTurn([ToolResult("tu_42", "Search results: Python is great.", false)])]
  {
    var search := ToolUse("search_course_content", map["query" := "test"], "tu_42");
    var run: ToolFn := (name, input) => Ok("Search results: Python is great.");
    var first := ModelResponse(ToolUseStop, [search]);
    var answer := ModelResponse("end_turn", [Text("Final answer.")]);
    var script := [Response(first), Response(answer)];
    var result := ToolResult("tu_42", "Search results: Python is great.", false);
    assert [search][..0] == [];
    assert ToolUses([search]) == [search];
    assert ToolResults([search], run) == [result];
    assert ToolCalls([search]) == [ToolCall("search_course_content", map["query" := "test"])];
    var request := InitialRequest(base, query, history, tools);
    var s := Session(base, request.system, request.tools, run);
    var messages := [UserQuery(query), AssistantTurn([search])];
    assert Rest(script) == [Response(answer)];
    var rest := Rounds(s, 0, first, messages, [Response(answer)]);
    assert rest.outcome == Answer("Final answer.") && |rest.requests| == 1;
    assert rest.requests[0].messages == messages + [ToolResultsTurn([result])];
  }
}
