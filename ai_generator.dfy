/** The multi-round tool-orchestration loop of `AIGenerator`
    (backend/ai_generator.py).

    The model client and the tool manager are oracles: the client answers the
    k-th request of a call with an `Outcome`, the manager answers the k-th tool
    invocation with a `ToolOutcome`. `GenerateResponse` runs the loop over a
    mutable `RoundState` and returns, beside the answer, the requests it sent and
    the tool calls it made, so that contracts can speak of them; it is proved
    equal to the specification `Generate`, and the lemmas below state what the
    loop promises about every run. */
module AiGenerator {
  import opened Common

  /** The round budget (`max_rounds`). */
  const MaxRounds: nat := 2

  /** The fixed directive (`SYSTEM_PROMPT`); its wording is not modelled. */
  const SystemPrompt: string := "<fixed system directive>"

  const HistoryHeading: string := "\n\nPrevious conversation:\n"
  const IncompleteText: string := "I was unable to generate a complete response. Please try again."
  const MalformedText: string := "I encountered an error processing the response. Please try again."
  const ToolFailedPrefix: string := "Tool execution failed: "
  /** `str(e)` of the AttributeError raised by `None.execute_tool(...)`. */
  const NoManagerDetail: string := "'NoneType' object has no attribute 'execute_tool'"

  /** A content block of a model response. `Other` is a block of another type
      (it has a `type` but no `text`). */
  datatype Block = Text(text: string) | ToolUse(name: string, input: Args, id: string) | Other(kind: string)

  /** What one call of the model client does: answer, or raise. */
  datatype Outcome = Ok(content: seq<Block>) | Failed(detail: string)

  /** What `_execute_round` hands back: the response, or the apology string it
      synthesised from a failed call. */
  datatype Response = Reply(content: seq<Block>) | ErrorText(text: string)

  datatype ToolResult = ToolResult(toolUseId: string, content: string)

  /** An entry of the message log: the query, an assistant turn, or the user
      turn that carries the tool results. */
  datatype Message = User(text: string) | Assistant(content: seq<Block>) | ToolResults(results: seq<ToolResult>)

  datatype ToolChoice = Auto

  /** The parameters of one `messages.create` call, without the constant model
      name, temperature and token limit. */
  datatype Request = Request(messages: seq<Message>, system: string,
                             tools: Option<seq<ToolDefinition>>, toolChoice: Option<ToolChoice>)

  datatype ToolCall = ToolCall(name: string, input: Args)

  /** The model client: the k-th request of a call (counting from 0) gets this outcome. */
  type Client = (nat, Request) -> Outcome

  /** The tool manager's `execute_tool`: the k-th invocation gets this outcome. */
  type Dispatcher = (nat, ToolCall) -> ToolOutcome

  // ---------------------------------------------------------------------------
  // Pure parts of the loop

  /** The system text of every request of a call. */
  function SystemContent(history: Option<string>): (s: string)
    ensures SystemPrompt <= s
    ensures s == SystemPrompt <==> !Truthy(history)
    ensures Truthy(history) ==> |s| == |SystemPrompt| + |HistoryHeading| + |history.value|
    ensures Truthy(history) ==> s[|SystemPrompt|..|SystemPrompt| + |HistoryHeading|] == HistoryHeading
    ensures Truthy(history) ==> s[|SystemPrompt| + |HistoryHeading|..] == history.value
  {
    if Truthy(history) then SystemPrompt + HistoryHeading + history.value else SystemPrompt
  }

  /** `bool(tools and tool_manager)`: an empty tool list counts as no tools. */
  predicate ToolsEnabled(tools: Option<seq<ToolDefinition>>, manager: Option<Dispatcher>)
  {
    tools.Some? && |tools.value| > 0 && manager.Some?
  }

  /** The request of one round: tools and the automatic tool choice are attached
      exactly when tools are available. */
  function RequestFor(messages: seq<Message>, system: string, toolsAvailable: bool,
                      tools: Option<seq<ToolDefinition>>): (r: Request)
    ensures r.messages == messages && r.system == system
    ensures r.toolChoice == Some(Auto) <==> toolsAvailable
    ensures r.toolChoice == None <==> !toolsAvailable
    ensures toolsAvailable ==> r.tools == tools
    ensures !toolsAvailable ==> r.tools == None
  {
    if toolsAvailable then Request(messages, system, tools, Some(Auto))
    else Request(messages, system, None, None)
  }

  const ApologyHead: string := "I encountered an issue while processing your request: "
  const ApologyTail: string := ". Please try rephrasing your question."
  const ApiErrorLabel: string := "API error in round "

  /** `_create_error_response`. */
  function CreateErrorResponse(message: string): string
  {
    ApologyHead + message + ApologyTail
  }

  /** The message of an apology sits between the fixed head and tail, and can
      be read back from it. */
  lemma ErrorResponseKeepsMessage(message: string)
    ensures var s := CreateErrorResponse(message);
      && |s| == |ApologyHead| + |message| + |ApologyTail|
      && s[..|ApologyHead|] == ApologyHead
      && s[|ApologyHead|..|ApologyHead| + |message|] == message
      && s[|ApologyHead| + |message|..] == ApologyTail
  {
  }

  /** The apology for a failed model call in round `round`. */
  function ApiErrorText(round: nat, detail: string): string
  {
    CreateErrorResponse(ApiErrorLabel + IntToString(round) + ": " + detail)
  }

  /** `_execute_round` after the call: a failure becomes its apology string. */
  function Respond(o: Outcome, round: nat): (r: Response)
    ensures o.Ok? ==> r == Reply(o.content)
    ensures o.Failed? ==> r == ErrorText(ApiErrorText(round, o.detail))
  {
    match o
    case Ok(content) => Reply(content)
    case Failed(detail) => ErrorText(ApiErrorText(round, detail))
  }

  predicate HasToolUse(blocks: seq<Block>)
  {
    exists i :: 0 <= i < |blocks| && blocks[i].ToolUse?
  }

  /** `_should_terminate_early`. Its three conditions are tried in order and each
      one stops the loop, so the predicate is their disjunction. */
  predicate ShouldTerminateEarly(r: Response, toolExecutionFailed: bool)
  {
    r.ErrorText? || toolExecutionFailed || !HasToolUse(r.content)
  }

  /** The stop conditions of `_should_terminate_early`, in the order the source
      tries them: an error string, a tool failure in the previous round, a
      response without content; otherwise the loop goes on exactly when the
      response has a tool-use block. */
  lemma TerminationConditions(r: Response, toolExecutionFailed: bool)
    ensures r.ErrorText? ==> ShouldTerminateEarly(r, toolExecutionFailed)
    ensures toolExecutionFailed ==> ShouldTerminateEarly(r, toolExecutionFailed)
    ensures r.Reply? && r.content == [] ==> ShouldTerminateEarly(r, toolExecutionFailed)
    ensures r.Reply? && !toolExecutionFailed ==>
              (ShouldTerminateEarly(r, toolExecutionFailed) <==> !HasToolUse(r.content))
  {
  }

  /** `_extract_final_text`. */
  function ExtractFinalText(r: Response): (s: string)
    ensures r.ErrorText? ==> s == r.text
    ensures r.Reply? && r.content == [] ==> s == IncompleteText
    ensures r.Reply? && r.content != [] && r.content[0].Text? ==> s == r.content[0].text
    ensures r.Reply? && r.content != [] && !r.content[0].Text? ==> s == MalformedText
  {
    match r
    case ErrorText(text) => text
    case Reply(content) =>
      if content == [] then IncompleteText
      else if content[0].Text? then content[0].text
      else MalformedText
  }

  /** The tool-use blocks of a response, in order. */
  function ToolUses(blocks: seq<Block>): (uses: seq<Block>)
    ensures |uses| <= |blocks|
    ensures forall j :: 0 <= j < |uses| ==> uses[j].ToolUse?
    decreases |blocks|
  {
    if blocks == [] then []
    else ToolUses(blocks[..|blocks| - 1]) + (if blocks[|blocks| - 1].ToolUse? then [blocks[|blocks| - 1]] else [])
  }

  /** Running the tool a tool-use block asks for; without a tool manager the
      call itself raises. */
  function Dispatch(manager: Option<Dispatcher>, k: nat, b: Block): ToolOutcome
    requires b.ToolUse?
  {
    match manager
    case None => Raise(NoManagerDetail)
    case Some(execute) => execute(k, ToolCall(b.name, b.input))
  }

  /** The content of the tool result for an outcome: failures become text. */
  function ResultText(o: ToolOutcome): string
  {
    match o
    case Done(text) => text
    case Raise(detail) => ToolFailedPrefix + detail
  }

  /** What absorbing one response's tool calls produces: the tool results, the
      invocations made on the manager, and the failure flag. */
  datatype Absorbed = Absorbed(results: seq<ToolResult>, calls: seq<ToolCall>, failed: bool)

  /** The effect of `_prepare_next_round`'s loop over `blocks`, when `k`
      invocations were made before it. */
  function Absorb(blocks: seq<Block>, manager: Option<Dispatcher>, k: nat): Absorbed
    decreases |blocks|
  {
    if blocks == [] then Absorbed([], [], false)
    else
      var a := Absorb(blocks[..|blocks| - 1], manager, k);
      var b := blocks[|blocks| - 1];
      if !b.ToolUse? then a
      else
        var o := Dispatch(manager, k + |a.calls|, b);
        Absorbed(a.results + [ToolResult(b.id, ResultText(o))],
                 a.calls + (if manager.Some? then [ToolCall(b.name, b.input)] else []),
                 a.failed || o.Raise?)
  }

  /** The message log after a round: the assistant turn with the whole response,
      then the tool results if there are any. */
  function NextMessages(messages: seq<Message>, content: seq<Block>, results: seq<ToolResult>): seq<Message>
  {
    messages + [Assistant(content)] + (if results == [] then [] else [ToolResults(results)])
  }

  /** Appending a block to a response appends it to the tool uses exactly when
      it is a tool-use block. */
  lemma ToolUsesAppend(blocks: seq<Block>)
    requires blocks != []
    ensures var init := blocks[..|blocks| - 1]; var b := blocks[|blocks| - 1];
      && ToolUses(blocks) == ToolUses(init) + (if b.ToolUse? then [b] else [])
      && (b.ToolUse? ==> ToolUses(blocks)[|ToolUses(init)|] == b)
      && (forall j :: 0 <= j < |ToolUses(init)| ==> ToolUses(blocks)[j] == ToolUses(init)[j])
  {
  }

  /** The manager is invoked once per tool-use block, with that block's name and
      input; without a manager nothing is invoked. */
  lemma {:induction false} AbsorbCalls(blocks: seq<Block>, manager: Option<Dispatcher>, k: nat)
    ensures var a := Absorb(blocks, manager, k); var uses := ToolUses(blocks);
      && (manager.None? ==> a.calls == [])
      && (manager.Some? ==> |a.calls| == |uses|)
      && (manager.Some? ==> forall j :: 0 <= j < |uses| ==> a.calls[j] == ToolCall(uses[j].name, uses[j].input))
    decreases |blocks|
  {
    if blocks != [] {
      AbsorbCalls(blocks[..|blocks| - 1], manager, k);
      ToolUsesAppend(blocks);
    }
  }

  /** Tool result `j` answers tool-use block `j`: it echoes the block's id and
      carries the outcome of invocation `k + j`. */
  lemma {:induction false} AbsorbResults(blocks: seq<Block>, manager: Option<Dispatcher>, k: nat)
    ensures var a := Absorb(blocks, manager, k); var uses := ToolUses(blocks);
      && |a.results| == |uses|
      && (forall j :: 0 <= j < |uses| ==> a.results[j] == ToolResult(uses[j].id, ResultText(Dispatch(manager, k + j, uses[j]))))
    decreases |blocks|
  {
    if blocks != [] {
      var init := blocks[..|blocks| - 1];
      AbsorbResults(init, manager, k);
      AbsorbCalls(init, manager, k);
      ToolUsesAppend(blocks);
      var b := blocks[|blocks| - 1];
      if b.ToolUse? && manager.None? {
        assert Dispatch(manager, k + |Absorb(init, manager, k).calls|, b) == Dispatch(manager, k + |ToolUses(init)|, b);
      }
    }
  }

  /** The failure flag is set exactly when one of the invocations raised. */
  lemma {:induction false} AbsorbFailed(blocks: seq<Block>, manager: Option<Dispatcher>, k: nat)
    ensures var a := Absorb(blocks, manager, k); var uses := ToolUses(blocks);
      a.failed <==> exists j :: 0 <= j < |uses| && Dispatch(manager, k + j, uses[j]).Raise?
    decreases |blocks|
  {
    if blocks != [] {
      var init := blocks[..|blocks| - 1];
      AbsorbFailed(init, manager, k);
      AbsorbCalls(init, manager, k);
      ToolUsesAppend(blocks);
      var b := blocks[|blocks| - 1];
      if b.ToolUse? && manager.None? {
        assert Dispatch(manager, k + |Absorb(init, manager, k).calls|, b) == Dispatch(manager, k + |ToolUses(init)|, b);
      }
    }
  }

  /** `_prepare_next_round` yields one result per tool-use block, in block order,
      each echoing the block's id; the manager is invoked once per block, with
      that block's name and input; and the failure flag is set exactly when one
      of those invocations raised. */
  lemma AbsorbShape(blocks: seq<Block>, manager: Option<Dispatcher>, k: nat)
    ensures var a := Absorb(blocks, manager, k); var uses := ToolUses(blocks);
      && |a.results| == |uses|
      && (forall j :: 0 <= j < |uses| ==> a.results[j] == ToolResult(uses[j].id, ResultText(Dispatch(manager, k + j, uses[j]))))
      && (manager.None? ==> a.calls == [])
      && (manager.Some? ==> |a.calls| == |uses|)
      && (manager.Some? ==> forall j :: 0 <= j < |uses| ==> a.calls[j] == ToolCall(uses[j].name, uses[j].input))
      && (a.failed <==> exists j :: 0 <= j < |uses| && Dispatch(manager, k + j, uses[j]).Raise?)
  {
    AbsorbResults(blocks, manager, k);
    AbsorbCalls(blocks, manager, k);
    AbsorbFailed(blocks, manager, k);
  }

  lemma AbsorbNoToolUse(blocks: seq<Block>, manager: Option<Dispatcher>, k: nat)
    requires !HasToolUse(blocks)
    ensures ToolUses(blocks) == []
    ensures Absorb(blocks, manager, k) == Absorbed([], [], false)
  {
    ToolUsesExist(blocks);
    AbsorbShape(blocks, manager, k);
  }

  /** There is a tool-use block exactly when `ToolUses` finds one. */
  lemma {:induction false} ToolUsesExist(blocks: seq<Block>)
    ensures HasToolUse(blocks) <==> ToolUses(blocks) != []
    decreases |blocks|
  {
    if blocks != [] {
      var init := blocks[..|blocks| - 1];
      ToolUsesExist(init);
      if HasToolUse(init) {
        var i :| 0 <= i < |init| && init[i].ToolUse?;
        assert blocks[i].ToolUse?;
      }
      if HasToolUse(blocks) && !blocks[|blocks| - 1].ToolUse? {
        var i :| 0 <= i < |blocks| && blocks[i].ToolUse?;
        assert init[i].ToolUse?;
      }
    }
  }

  // ---------------------------------------------------------------------------
  // The specification of the whole call

  /** What `generate_response` sent, invoked and returned. */
  datatype Trace = Trace(answer: string, requests: seq<Request>, toolCalls: seq<ToolCall>)

  /** What stays fixed for the duration of one call. */
  datatype Setup = Setup(system: string, tools: Option<seq<ToolDefinition>>, enabled: bool,
                         manager: Option<Dispatcher>, client: Client)

  /** The rest of a call from the top of the loop in round `round`, after
      `requests` were sent and `calls` made. */
  function Rounds(c: Setup, round: nat, messages: seq<Message>, failed: bool,
                  requests: seq<Request>, calls: seq<ToolCall>): Trace
    requires 1 <= round <= MaxRounds
    decreases MaxRounds - round
  {
    var request := RequestFor(messages, c.system, c.enabled, c.tools);
    var response := Respond(c.client(|requests|, request), round);
    var sent := requests + [request];
    if ShouldTerminateEarly(response, failed) then
      Trace(ExtractFinalText(response), sent, calls)
    else
      var a := Absorb(response.content, c.manager, |calls|);
      var next := NextMessages(messages, response.content, a.results);
      if round >= MaxRounds then
        var last := RequestFor(next, c.system, false, c.tools);
        Trace(ExtractFinalText(Respond(c.client(|sent|, last), round)), sent + [last], calls + a.calls)
      else
        Rounds(c, round + 1, next, a.failed, sent, calls + a.calls)
  }

  function SetupFor(history: Option<string>, tools: Option<seq<ToolDefinition>>,
                    manager: Option<Dispatcher>, client: Client): Setup
  {
    Setup(SystemContent(history), tools, ToolsEnabled(tools, manager), manager, client)
  }

  /** `generate_response(query, conversation_history, tools, tool_manager)`. */
  function Generate(query: string, history: Option<string>, tools: Option<seq<ToolDefinition>>,
                    manager: Option<Dispatcher>, client: Client): Trace
  {
    Rounds(SetupFor(history, tools, manager, client), 1, [User(query)], false, [], [])
  }

  // ---------------------------------------------------------------------------
  // The loop, as the source runs it

  /** The `round_state` dictionary of one call. */
  class RoundState {
    var roundNumber: nat
    var messages: seq<Message>
    const systemContent: string
    var toolsAvailable: bool
    var toolExecutionFailed: bool

    constructor (query: string, systemContent: string, toolsAvailable: bool)
      ensures roundNumber == 1 && messages == [User(query)]
      ensures this.systemContent == systemContent && this.toolsAvailable == toolsAvailable
      ensures !toolExecutionFailed
    {
      roundNumber := 1;
      messages := [User(query)];
      this.systemContent := systemContent;
      this.toolsAvailable := toolsAvailable;
      toolExecutionFailed := false;
    }
  }

  /** `_execute_round`: one model call (the k-th of the call) with the current
      log; a failure is turned into its apology string. */
  method ExecuteRound(state: RoundState, tools: Option<seq<ToolDefinition>>, client: Client, k: nat)
    returns (response: Response, request: Request)
    ensures request == RequestFor(state.messages, state.systemContent, state.toolsAvailable, tools)
    ensures response == Respond(client(k, request), state.roundNumber)
  {
    request := RequestFor(state.messages, state.systemContent, state.toolsAvailable, tools);
    var outcome := client(k, request);
    match outcome {
      case Ok(content) =>
        response := Reply(content);
      case Failed(detail) =>
        response := ErrorText(CreateErrorResponse(ApiErrorLabel + IntToString(state.roundNumber) + ": " + detail));
    }
  }

  /** `_prepare_next_round`: appends the assistant turn, runs every requested
      tool in block order (catching failures), appends the results if there are
      any, and records whether a tool failed. `k` invocations were made before. */
  method PrepareNextRound(response: Response, state: RoundState, manager: Option<Dispatcher>, k: nat)
    returns (calls: seq<ToolCall>)
    requires response.Reply?
    modifies state
    ensures var a := Absorb(response.content, manager, k);
      && state.messages == NextMessages(old(state.messages), response.content, a.results)
      && state.toolExecutionFailed == a.failed
      && calls == a.calls
    ensures state.roundNumber == old(state.roundNumber) && state.toolsAvailable == old(state.toolsAvailable)
  {
    var blocks := response.content;
    state.messages := state.messages + [Assistant(blocks)];
    var toolResults: seq<ToolResult> := [];
    var failed := false;
    calls := [];
    for i := 0 to |blocks|
      invariant Absorb(blocks[..i], manager, k) == Absorbed(toolResults, calls, failed)
    {
      assert blocks[..i + 1][..i] == blocks[..i];
      var block := blocks[i];
      if block.ToolUse? {
        var outcome: ToolOutcome;
        match manager {
          case None =>
            outcome := Raise(NoManagerDetail);
          case Some(execute) =>
            outcome := execute(k + |calls|, ToolCall(block.name, block.input));
            calls := calls + [ToolCall(block.name, block.input)];
        }
        match outcome {
          case Done(text) =>
            toolResults := toolResults + [ToolResult(block.id, text)];
          case Raise(detail) =>
            failed := true;
            toolResults := toolResults + [ToolResult(block.id, ToolFailedPrefix + detail)];
        }
      }
    }
    assert blocks[..|blocks|] == blocks;
    if toolResults != [] {
      state.messages := state.messages + [ToolResults(toolResults)];
    }
    state.toolExecutionFailed := failed;
  }

  /** A round whose response stops the loop: its text is the answer. */
  lemma RoundsStops(c: Setup, round: nat, messages: seq<Message>, failed: bool, requests: seq<Request>,
                    calls: seq<ToolCall>, request: Request, response: Response)
    requires 1 <= round <= MaxRounds
    requires request == RequestFor(messages, c.system, c.enabled, c.tools)
    requires response == Respond(c.client(|requests|, request), round)
    requires ShouldTerminateEarly(response, failed)
    ensures Rounds(c, round, messages, failed, requests, calls)
         == Trace(ExtractFinalText(response), requests + [request], calls)
  {
  }

  /** A round before the last budgeted one, whose response asks for tools: the
      round is absorbed and the loop goes on with the next round. */
  lemma RoundsContinues(c: Setup, round: nat, messages: seq<Message>, failed: bool, requests: seq<Request>,
                        calls: seq<ToolCall>, request: Request, response: Response)
    requires 1 <= round < MaxRounds
    requires request == RequestFor(messages, c.system, c.enabled, c.tools)
    requires response == Respond(c.client(|requests|, request), round)
    requires !ShouldTerminateEarly(response, failed)
    ensures var a := Absorb(response.content, c.manager, |calls|);
      Rounds(c, round, messages, failed, requests, calls)
        == Rounds(c, round + 1, NextMessages(messages, response.content, a.results), a.failed,
                  requests + [request], calls + a.calls)
  {
  }

  /** The last budgeted round, when its response asks for tools: the round is
      absorbed and one more call is made without tools. */
  lemma RoundsForcedFinal(c: Setup, messages: seq<Message>, failed: bool, requests: seq<Request>,
                          calls: seq<ToolCall>, request: Request, response: Response, last: Request)
    requires request == RequestFor(messages, c.system, c.enabled, c.tools)
    requires response == Respond(c.client(|requests|, request), MaxRounds)
    requires !ShouldTerminateEarly(response, failed)
    requires last == RequestFor(NextMessages(messages, response.content, Absorb(response.content, c.manager, |calls|).results),
                                c.system, false, c.tools)
    ensures Rounds(c, MaxRounds, messages, failed, requests, calls)
         == Trace(ExtractFinalText(Respond(c.client(|requests| + 1, last), MaxRounds)), requests + [request] + [last],
                  calls + Absorb(response.content, c.manager, |calls|).calls)
  {
  }

  /** `generate_response`: at most `MaxRounds` tool-enabled rounds, then one
      forced call without tools; every failure ends as text. */
  method GenerateResponse(query: string, history: Option<string>, tools: Option<seq<ToolDefinition>>,
                          manager: Option<Dispatcher>, client: Client)
    returns (answer: string, requests: seq<Request>, toolCalls: seq<ToolCall>)
    ensures Trace(answer, requests, toolCalls) == Generate(query, history, tools, manager, client)
    ensures 1 <= |requests| <= MaxRounds + 1
  {
    var state := new RoundState(query, SystemContent(history), ToolsEnabled(tools, manager));
    ghost var c := SetupFor(history, tools, manager, client);
    ghost var target := Generate(query, history, tools, manager, client);
    requests, toolCalls := [], [];
    var response: Response := Reply([]);
    while state.roundNumber <= MaxRounds
      invariant 1 <= state.roundNumber <= MaxRounds
      invariant |requests| == state.roundNumber - 1
      invariant state.systemContent == c.system && state.toolsAvailable == c.enabled
      invariant Rounds(c, state.roundNumber, state.messages, state.toolExecutionFailed, requests, toolCalls) == target
      decreases MaxRounds - state.roundNumber
    {
      ghost var round, log, failed, sent, made :=
        state.roundNumber, state.messages, state.toolExecutionFailed, requests, toolCalls;
      var request;
      response, request := ExecuteRound(state, tools, client, |requests|);
      requests := requests + [request];
      if ShouldTerminateEarly(response, state.toolExecutionFailed) {
        answer := ExtractFinalText(response);
        RoundsStops(c, round, log, failed, sent, made, request, response);
        return;
      }
      if state.roundNumber >= MaxRounds {
        var calls := PrepareNextRound(response, state, manager, |toolCalls|);
        toolCalls := toolCalls + calls;
        state.toolsAvailable := false;
        var finalResponse, finalRequest := ExecuteRound(state, tools, client, |requests|);
        requests := requests + [finalRequest];
        answer := ExtractFinalText(finalResponse);
        RoundsForcedFinal(c, log, failed, sent, made, request, response, finalRequest);
        assert Trace(answer, requests, toolCalls) == Rounds(c, round, log, failed, sent, made);
        return;
      }
      var calls := PrepareNextRound(response, state, manager, |toolCalls|);
      toolCalls := toolCalls + calls;
      state.roundNumber := state.roundNumber + 1;
      RoundsContinues(c, round, log, failed, sent, made, request, response);
      assert Rounds(c, state.roundNumber, state.messages, state.toolExecutionFailed, requests, toolCalls)
          == Rounds(c, round, log, failed, sent, made);
    }
    answer := ExtractFinalText(response);
  }

  // ---------------------------------------------------------------------------
  // What every call promises

  /** The first request of a call: the query alone. */
  function FirstRequest(query: string, history: Option<string>, tools: Option<seq<ToolDefinition>>,
                        manager: Option<Dispatcher>): Request
  {
    RequestFor([User(query)], SystemContent(history), ToolsEnabled(tools, manager), tools)
  }

  /** The log after one round has been absorbed: the earlier entries untouched,
      then the assistant turn with the whole response, then (only when the
      response asked for tools) one user turn with one result per tool-use block,
      in block order, each echoing the block's id. */
  ghost predicate RoundAppended(before: seq<Message>, after: seq<Message>, content: seq<Block>)
  {
    var uses := ToolUses(content);
    && |after| == |before| + (if uses == [] then 1 else 2)
    && after[..|before|] == before
    && after[|before|] == Assistant(content)
    && (uses != [] ==>
          && after[|before| + 1].ToolResults?
          && |after[|before| + 1].results| == |uses|
          && forall j :: 0 <= j < |uses| ==> after[|before| + 1].results[j].toolUseId == uses[j].id)
  }

  lemma NextMessagesAppendsRound(messages: seq<Message>, content: seq<Block>, manager: Option<Dispatcher>, k: nat)
    ensures RoundAppended(messages, NextMessages(messages, content, Absorb(content, manager, k).results), content)
  {
    AbsorbShape(content, manager, k);
  }

  /** The requests of the rest of a call extend the ones already sent; the
      next one carries the current log. */
  lemma {:induction false} RoundsPrefix(c: Setup, round: nat, messages: seq<Message>, failed: bool,
                                        requests: seq<Request>, calls: seq<ToolCall>)
    requires 1 <= round <= MaxRounds
    requires |requests| == round - 1
    ensures var t := Rounds(c, round, messages, failed, requests, calls);
      && |requests| < |t.requests| <= MaxRounds + 1
      && t.requests[..|requests|] == requests
      && t.requests[|requests|] == RequestFor(messages, c.system, c.enabled, c.tools)
    decreases MaxRounds - round
  {
    var request := RequestFor(messages, c.system, c.enabled, c.tools);
    var response := Respond(c.client(|requests|, request), round);
    var sent := requests + [request];
    if !ShouldTerminateEarly(response, failed) && round < MaxRounds {
      var a := Absorb(response.content, c.manager, |calls|);
      var next := NextMessages(messages, response.content, a.results);
      RoundsPrefix(c, round + 1, next, a.failed, sent, calls + a.calls);
      var t := Rounds(c, round + 1, next, a.failed, sent, calls + a.calls);
      assert Rounds(c, round, messages, failed, requests, calls) == t;
      assert t.requests[..|requests|] == t.requests[..|sent|][..|requests|];
    }
  }

  /** Every request of the rest of a call carries the system text, and offers
      tools exactly when they are enabled and its index is within the budget. */
  lemma {:induction false} RoundsRequests(c: Setup, round: nat, messages: seq<Message>, failed: bool,
                                          requests: seq<Request>, calls: seq<ToolCall>)
    requires 1 <= round <= MaxRounds
    requires |requests| == round - 1
    ensures var t := Rounds(c, round, messages, failed, requests, calls);
      forall i :: |requests| <= i < |t.requests| ==>
        t.requests[i] == RequestFor(t.requests[i].messages, c.system, c.enabled && i < MaxRounds, c.tools)
    decreases MaxRounds - round
  {
    RoundsPrefix(c, round, messages, failed, requests, calls);
    var request := RequestFor(messages, c.system, c.enabled, c.tools);
    var response := Respond(c.client(|requests|, request), round);
    var sent := requests + [request];
    if !ShouldTerminateEarly(response, failed) && round < MaxRounds {
      var a := Absorb(response.content, c.manager, |calls|);
      var next := NextMessages(messages, response.content, a.results);
      RoundsRequests(c, round + 1, next, a.failed, sent, calls + a.calls);
    }
  }

  /** Between consecutive requests of the rest of a call, the earlier one was
      answered with tool-use blocks and the log grew by that round. */
  lemma {:induction false} RoundsSteps(c: Setup, round: nat, messages: seq<Message>, failed: bool,
                                       requests: seq<Request>, calls: seq<ToolCall>)
    requires 1 <= round <= MaxRounds
    requires |requests| == round - 1
    ensures var t := Rounds(c, round, messages, failed, requests, calls);
      forall i :: |requests| <= i < |t.requests| - 1 ==>
        && c.client(i, t.requests[i]).Ok?
        && HasToolUse(c.client(i, t.requests[i]).content)
        && RoundAppended(t.requests[i].messages, t.requests[i + 1].messages, c.client(i, t.requests[i]).content)
    decreases MaxRounds - round
  {
    RoundsPrefix(c, round, messages, failed, requests, calls);
    var request := RequestFor(messages, c.system, c.enabled, c.tools);
    var response := Respond(c.client(|requests|, request), round);
    var sent := requests + [request];
    if !ShouldTerminateEarly(response, failed) {
      var a := Absorb(response.content, c.manager, |calls|);
      var next := NextMessages(messages, response.content, a.results);
      NextMessagesAppendsRound(messages, response.content, c.manager, |calls|);
      if round < MaxRounds {
        RoundsPrefix(c, round + 1, next, a.failed, sent, calls + a.calls);
        RoundsSteps(c, round + 1, next, a.failed, sent, calls + a.calls);
      }
    }
  }

  /** When the last call of the rest of a call failed, the answer is the apology
      naming its round; the forced final call reports the last budgeted round. */
  lemma {:induction false} RoundsFailure(c: Setup, round: nat, messages: seq<Message>, failed: bool,
                                         requests: seq<Request>, calls: seq<ToolCall>)
    requires 1 <= round <= MaxRounds
    requires |requests| == round - 1
    ensures var t := Rounds(c, round, messages, failed, requests, calls); var n := |t.requests|;
      c.client(n - 1, t.requests[n - 1]).Failed? ==>
        t.answer == ApiErrorText(if n <= MaxRounds then n else MaxRounds, c.client(n - 1, t.requests[n - 1]).detail)
    decreases MaxRounds - round
  {
    RoundsPrefix(c, round, messages, failed, requests, calls);
    var request := RequestFor(messages, c.system, c.enabled, c.tools);
    var response := Respond(c.client(|requests|, request), round);
    var sent := requests + [request];
    if !ShouldTerminateEarly(response, failed) && round < MaxRounds {
      var a := Absorb(response.content, c.manager, |calls|);
      var next := NextMessages(messages, response.content, a.results);
      RoundsFailure(c, round + 1, next, a.failed, sent, calls + a.calls);
    }
  }

  /** The loop never makes more than `MaxRounds + 1` model calls; only the last
      call can have failed, and a failure ends the call with the apology naming
      its round (the forced final call reports the last budgeted round). */
  lemma CallBudget(query: string, history: Option<string>, tools: Option<seq<ToolDefinition>>,
                   manager: Option<Dispatcher>, client: Client)
    ensures var t := Generate(query, history, tools, manager, client); var n := |t.requests|;
      && 1 <= n <= MaxRounds + 1
      && t.requests[0] == FirstRequest(query, history, tools, manager)
      && (forall i :: 0 <= i < n - 1 ==> client(i, t.requests[i]).Ok?)
      && (client(n - 1, t.requests[n - 1]).Failed? ==>
            t.answer == ApiErrorText(if n <= MaxRounds then n else MaxRounds, client(n - 1, t.requests[n - 1]).detail))
  {
    RoundsPrefix(SetupFor(history, tools, manager, client), 1, [User(query)], false, [], []);
    RoundsSteps(SetupFor(history, tools, manager, client), 1, [User(query)], false, [], []);
    RoundsFailure(SetupFor(history, tools, manager, client), 1, [User(query)], false, [], []);
  }

  /** Tools and the automatic tool choice are offered only when both a non-empty
      tool list and a tool manager were given, and then in exactly the budgeted
      rounds: never in the forced final call. */
  lemma ToolsOfferedOnlyInBudgetedRounds(query: string, history: Option<string>, tools: Option<seq<ToolDefinition>>,
                                         manager: Option<Dispatcher>, client: Client)
    ensures var t := Generate(query, history, tools, manager, client);
      forall i :: 0 <= i < |t.requests| ==>
        if ToolsEnabled(tools, manager) && i < MaxRounds
        then t.requests[i].tools == tools && t.requests[i].toolChoice == Some(Auto)
        else t.requests[i].tools == None && t.requests[i].toolChoice == None
  {
    RoundsRequests(SetupFor(history, tools, manager, client), 1, [User(query)], false, [], []);
  }

  /** Every request of a call carries the same system text. */
  lemma SameSystemEveryRound(query: string, history: Option<string>, tools: Option<seq<ToolDefinition>>,
                             manager: Option<Dispatcher>, client: Client)
    ensures var t := Generate(query, history, tools, manager, client);
      forall i :: 0 <= i < |t.requests| ==> t.requests[i].system == SystemContent(history)
  {
    RoundsRequests(SetupFor(history, tools, manager, client), 1, [User(query)], false, [], []);
  }

  /** The message log starts with the query alone and grows by exactly one
      absorbed round between consecutive requests; a request is followed by
      another only when its response asked for tools. */
  lemma MessageLogShape(query: string, history: Option<string>, tools: Option<seq<ToolDefinition>>,
                        manager: Option<Dispatcher>, client: Client)
    ensures var t := Generate(query, history, tools, manager, client);
      && t.requests[0].messages == [User(query)]
      && forall i :: 0 <= i < |t.requests| - 1 ==>
           && client(i, t.requests[i]).Ok?
           && HasToolUse(client(i, t.requests[i]).content)
           && RoundAppended(t.requests[i].messages, t.requests[i + 1].messages, client(i, t.requests[i]).content)
  {
    RoundsPrefix(SetupFor(history, tools, manager, client), 1, [User(query)], false, [], []);
    RoundsSteps(SetupFor(history, tools, manager, client), 1, [User(query)], false, [], []);
  }

  /** A first answer without tool-use blocks ends the call: one model call, no
      tool run, and the answer is that response's first text. */
  lemma AnswerWithoutToolUseEndsTheCall(query: string, history: Option<string>, tools: Option<seq<ToolDefinition>>,
                                        manager: Option<Dispatcher>, client: Client)
    requires client(0, FirstRequest(query, history, tools, manager)).Ok?
    requires !HasToolUse(client(0, FirstRequest(query, history, tools, manager)).content)
    ensures var t := Generate(query, history, tools, manager, client);
      var content := client(0, FirstRequest(query, history, tools, manager)).content;
      && t.requests == [FirstRequest(query, history, tools, manager)]
      && t.toolCalls == []
      && t.answer == ExtractFinalText(Reply(content))
      && (content != [] && content[0].Text? ==> t.answer == content[0].text)
  {
  }

  /** A failed first model call is not propagated: the call ends at once, no tool
      runs, and the answer is the apology for round 1. */
  lemma FirstCallFailureIsApology(query: string, history: Option<string>, tools: Option<seq<ToolDefinition>>,
                                  manager: Option<Dispatcher>, client: Client)
    requires client(0, FirstRequest(query, history, tools, manager)).Failed?
    ensures var t := Generate(query, history, tools, manager, client);
      var detail := client(0, FirstRequest(query, history, tools, manager)).detail;
      && |t.requests| == 1
      && t.toolCalls == []
      && t.answer == ApologyHead + "API error in round 1: " + detail + ApologyTail
  {
    var detail := client(0, FirstRequest(query, history, tools, manager)).detail;
    assert Generate(query, history, tools, manager, client)
        == Trace(ApiErrorText(1, detail), [FirstRequest(query, history, tools, manager)], []);
    RoundOneApology(detail);
  }

  lemma RoundOneApology(detail: string)
    ensures ApiErrorText(1, detail) == ApologyHead + "API error in round 1: " + detail + ApologyTail
  {
    assert IntToString(1) == "1";
  }

  /** A tool that raises in round 1 makes the next predicate check stop the loop:
      exactly one more model call (still offering tools, as the flag is read only
      after that call), no further tool runs, and that call's text is the answer. */
  lemma ToolFailureInFirstRound(query: string, history: Option<string>, tools: Option<seq<ToolDefinition>>,
                                manager: Option<Dispatcher>, client: Client)
    requires client(0, FirstRequest(query, history, tools, manager)).Ok?
    requires HasToolUse(client(0, FirstRequest(query, history, tools, manager)).content)
    requires Absorb(client(0, FirstRequest(query, history, tools, manager)).content, manager, 0).failed
    ensures var t := Generate(query, history, tools, manager, client);
      var first := client(0, FirstRequest(query, history, tools, manager)).content;
      && |t.requests| == 2
      && t.toolCalls == Absorb(first, manager, 0).calls
      && t.requests[1].toolChoice == t.requests[0].toolChoice
      && t.answer == ExtractFinalText(Respond(client(1, t.requests[1]), 2))
  {
  }

  /** When the first round's tools all succeed and the second response asks for
      tools again, whatever it was sent, the loop absorbs that round (even if a
      tool fails in it) and forces a third call without tools, whose text is
      returned without looking for tool use in it. */
  lemma ToolUseInBothRoundsForcesFinalCall(query: string, history: Option<string>, tools: Option<seq<ToolDefinition>>,
                                           manager: Option<Dispatcher>, client: Client)
    requires client(0, FirstRequest(query, history, tools, manager)).Ok?
    requires HasToolUse(client(0, FirstRequest(query, history, tools, manager)).content)
    requires !Absorb(client(0, FirstRequest(query, history, tools, manager)).content, manager, 0).failed
    requires forall r :: client(1, r).Ok? && HasToolUse(client(1, r).content)
    ensures var t := Generate(query, history, tools, manager, client);
      && |t.requests| == MaxRounds + 1
      && t.requests[2].tools == None && t.requests[2].toolChoice == None
      && t.answer == ExtractFinalText(Respond(client(2, t.requests[2]), MaxRounds))
  {
    var c := SetupFor(history, tools, manager, client);
    var first := FirstRequest(query, history, tools, manager);
    var reply1 := Respond(client(0, first), 1);
    var absorbed1 := Absorb(reply1.content, manager, 0);
    var log2 := NextMessages([User(query)], reply1.content, absorbed1.results);
    assert !ShouldTerminateEarly(reply1, false);
    RoundsContinues(c, 1, [User(query)], false, [], [], first, reply1);
    var second := RequestFor(log2, c.system, c.enabled, c.tools);
    var reply2 := Respond(client(1, second), 2);
    var absorbed2 := Absorb(reply2.content, manager, |absorbed1.calls|);
    var last := RequestFor(NextMessages(log2, reply2.content, absorbed2.results), c.system, false, c.tools);
    assert !ShouldTerminateEarly(reply2, absorbed1.failed);
    RoundsForcedFinal(c, log2, absorbed1.failed, [first], absorbed1.calls, second, reply2, last);
  }

  // ---------------------------------------------------------------------------
  // The legacy single-shot variant

  /** Why `_handle_tool_execution` raised: a tool raised, the model call raised,
      the final response had no content (IndexError), or its first block had no
      text (AttributeError). */
  datatype Failure = ToolRaised(detail: string) | ClientRaised(detail: string) | NoContent | NoText

  datatype Handled = Answered(text: string) | Propagated(failure: Failure)

  /** The caller's `base_params` dictionary. */
  class BaseParams {
    var messages: seq<Message>
    var system: string

    constructor (messages: seq<Message>, system: string)
      ensures this.messages == messages && this.system == system
    {
      this.messages := messages;
      this.system := system;
    }
  }

  /** The legacy tool loop: tools run in block order and the first one that
      raises aborts the loop. */
  datatype ToolRun = Completed(results: seq<ToolResult>, calls: seq<ToolCall>)
                   | Aborted(detail: string, calls: seq<ToolCall>)

  function RunTools(blocks: seq<Block>, manager: Dispatcher): ToolRun
    decreases |blocks|
  {
    if blocks == [] then Completed([], [])
    else
      var r := RunTools(blocks[..|blocks| - 1], manager);
      var b := blocks[|blocks| - 1];
      if r.Aborted? || !b.ToolUse? then r
      else
        var call := ToolCall(b.name, b.input);
        match manager(|r.calls|, call)
        case Done(text) => Completed(r.results + [ToolResult(b.id, text)], r.calls + [call])
        case Raise(detail) => Aborted(detail, r.calls + [call])
  }

  /** Once a tool has raised, later blocks change nothing. */
  lemma {:induction false} AbortedStays(blocks: seq<Block>, manager: Dispatcher, i: nat)
    requires i <= |blocks|
    requires RunTools(blocks[..i], manager).Aborted?
    ensures RunTools(blocks, manager) == RunTools(blocks[..i], manager)
    decreases |blocks| - i
  {
    if i < |blocks| {
      var longer := blocks[..i + 1];
      assert longer[..|longer| - 1] == blocks[..i];
      AbortedStays(blocks, manager, i + 1);
    } else {
      assert blocks[..i] == blocks;
    }
  }

  /** When no tool raises, the legacy loop produces the same tool results and
      invocations as `_prepare_next_round`; it aborts exactly when the round
      loop would have set its failure flag. */
  lemma {:induction false} LegacyAgreesWithRoundLoop(blocks: seq<Block>, manager: Dispatcher)
    ensures var r := RunTools(blocks, manager); var a := Absorb(blocks, Some(manager), 0);
      && (r.Aborted? <==> a.failed)
      && (r.Completed? ==> r.results == a.results && r.calls == a.calls)
    decreases |blocks|
  {
    if blocks != [] {
      var init := blocks[..|blocks| - 1];
      LegacyAgreesWithRoundLoop(init, manager);
      var r0 := RunTools(init, manager);
      var a0 := Absorb(init, Some(manager), 0);
      var b := blocks[|blocks| - 1];
      if r0.Aborted? && b.ToolUse? {
        var o := Dispatch(Some(manager), |a0.calls|, b);
        assert Absorb(blocks, Some(manager), 0).failed == (a0.failed || o.Raise?);
      }
    }
  }

  /** The outcome of the final call of the legacy variant: exceptions propagate. */
  function FinalAnswer(o: Outcome): Handled
  {
    match o
    case Failed(detail) => Propagated(ClientRaised(detail))
    case Ok(content) =>
      if content == [] then Propagated(NoContent)
      else if content[0].Text? then Answered(content[0].text)
      else Propagated(NoText)
  }

  /** `_handle_tool_execution`: runs the requested tools without catching their
      failures, then makes one call without tools on a copy of the caller's
      messages extended by the assistant turn and the tool results. The method
      has no modifies clause: the caller's `base` is left as it was. */
  method HandleToolExecution(initial: seq<Block>, base: BaseParams, manager: Dispatcher, client: Client)
    returns (result: Handled, request: Option<Request>, calls: seq<ToolCall>)
    ensures var run := RunTools(initial, manager);
      && calls == run.calls
      && (run.Aborted? ==> result == Propagated(ToolRaised(run.detail)) && request == None)
      && (run.Completed? ==>
            && request == Some(Request(NextMessages(base.messages, initial, run.results), base.system, None, None))
            && result == FinalAnswer(client(0, request.value)))
  {
    var messages := base.messages;
    messages := messages + [Assistant(initial)];
    var toolResults: seq<ToolResult> := [];
    calls := [];
    for i := 0 to |initial|
      invariant RunTools(initial[..i], manager) == Completed(toolResults, calls)
    {
      assert initial[..i + 1][..i] == initial[..i];
      var block := initial[i];
      if block.ToolUse? {
        var call := ToolCall(block.name, block.input);
        var outcome := manager(|calls|, call);
        calls := calls + [call];
        match outcome {
          case Done(text) =>
            toolResults := toolResults + [ToolResult(block.id, text)];
          case Raise(detail) =>
            AbortedStays(initial, manager, i + 1);
            return Propagated(ToolRaised(detail)), None, calls;
        }
      }
    }
    assert initial[..|initial|] == initial;
    if toolResults != [] {
      messages := messages + [ToolResults(toolResults)];
    }
    assert messages == NextMessages(base.messages, initial, toolResults);
    var finalRequest := Request(messages, base.system, None, None);
    request := Some(finalRequest);
    var finalResponse := client(0, finalRequest);
    match finalResponse {
      case Failed(detail) =>
        result := Propagated(ClientRaised(detail));
      case Ok(content) =>
        if |content| == 0 {
          result := Propagated(NoContent);
        } else if !content[0].Text? {
          result := Propagated(NoText);
        } else {
          result := Answered(content[0].text);
        }
    }
  }
}
