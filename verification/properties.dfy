/** What `generate_response` promises, stated over its specification
    `Generator.Generate` for every behaviour of the service and of the tool
    executor. */
module GeneratorProperties {
  import opened Optional
  import opened Text
  import opened Protocol
  import opened ToolLoop
  import opened Fallback
  import opened Generator

  /** The system text always starts with the prompt; with a history it is
      followed by the header and then exactly that history. */
  lemma SystemContentShape(prompt: string, history: Option<string>)
    ensures var s := SystemContent(prompt, history);
      && |s| >= |prompt| && s[..|prompt|] == prompt
      && (history.None? || history.value == "" ==> s == prompt)
      && (history.Some? && history.value != "" ==>
            && s[|prompt|..|prompt| + |HistoryHeader|] == HistoryHeader
            && s[|prompt| + |HistoryHeader|..] == history.value)
  {
    var s := SystemContent(prompt, history);
    if history.Some? && history.value != "" {
      assert s == prompt + HistoryHeader + history.value;
      assert s[..|prompt|] == prompt;
      assert s[|prompt|..|prompt| + |HistoryHeader|] == HistoryHeader;
      assert s[|prompt| + |HistoryHeader|..] == history.value;
    }
  }

  /** The first request: the base parameters, the system text, one user
      message holding the query, and the tools with `tool_choice` auto exactly
      when the tool list is present and non-empty. */
  lemma FirstRequestShape(base: BaseParams, prompt: string, query: string, history: Option<string>,
                          tools: Option<seq<ToolSchema>>)
    ensures var r := FirstRequest(base, prompt, query, history, tools);
      && r.model == base.model && r.temperature == base.temperature && r.maxTokens == base.maxTokens
      && r.system == SystemContent(prompt, history)
      && r.messages == [Message(User, PlainText(query))]
      && (r.tools.Some? <==> tools.Some? && tools.value != [])
      && (r.tools.Some? ==> r.tools == tools)
      && (r.toolChoice == Some(Auto) <==> r.tools.Some?)
      && (r.toolChoice.None? <==> r.tools.None?)
  {
  }

  /** The exception handlers: a bad request that mentions "credit balance"
      in any letter case, a timeout and any other exception give the fallback
      reply; any other bad request gives the technical-difficulties text,
      which carries the error's text and is never a fallback reply. */
  lemma RouteSpec(error: ErrorKind, query: string, history: Option<string>)
    ensures var r := Route(error, query, history);
      && (error.BadRequest? && Occurs(Lower(error.message), "credit balance") ==>
            r == FallbackResponse(query, history))
      && (error.BadRequest? && !Occurs(Lower(error.message), "credit balance") ==>
            && r == TechnicalDifficulties(error.message)
            && r[|TechnicalLead|..|TechnicalLead| + |error.message|] == error.message
            && forall q, h :: r != FallbackResponse(q, h))
      && (!error.BadRequest? ==> r == FallbackResponse(query, history))
  {
    if error.BadRequest? {
      var m := error.message;
      ContainsOccurs(Lower(m), "credit balance");
      if !Occurs(Lower(m), "credit balance") {
        var r := TechnicalDifficulties(m);
        assert r[|TechnicalLead|..|TechnicalLead| + |m|] == m;
        assert TechnicalLead[0] == Apology[0] == 'S';
        assert r[0] == 'S';
        forall q, h ensures r != FallbackResponse(q, h) {
          FallbackOpening(q, h);
          assert FallbackResponse(q, h)[0] == Opening[0] == 'I';
        }
      }
    }
  }

  /** A first call that raises ends in the handlers: one request, no tool
      call. */
  lemma FirstCallFails(base: BaseParams, prompt: string, respond: Responder,
                       execute: Option<Executor>, query: string, history: Option<string>,
                       tools: Option<seq<ToolSchema>>, error: ErrorKind)
    requires respond(FirstRequest(base, prompt, query, history, tools)) == Failed(error)
    ensures var t := Generate(base, prompt, respond, execute, query, history, tools);
      && t.requests == [FirstRequest(base, prompt, query, history, tools)]
      && t.toolCalls == []
      && t.result == Route(error, query, history)
  {
  }

  /** When the stop reason is not "tool_use", or no tool manager is given, the
      answer is the first block's text, after exactly one request and no tool
      call; an answer whose first block is not text raises and gets the
      fallback reply. */
  lemma DirectAnswer(base: BaseParams, prompt: string, respond: Responder,
                     execute: Option<Executor>, query: string, history: Option<string>,
                     tools: Option<seq<ToolSchema>>, response: Response)
    requires respond(FirstRequest(base, prompt, query, history, tools)) == Answered(response)
    requires response.stopReason != ToolUseStop || execute.None?
    ensures var t := Generate(base, prompt, respond, execute, query, history, tools);
      && t.requests == [FirstRequest(base, prompt, query, history, tools)]
      && t.toolCalls == []
      && (response.content != [] && response.content[0].TextBlock? ==>
            t.result == response.content[0].text)
      && (response.content == [] || !response.content[0].TextBlock? ==>
            t.result == FallbackResponse(query, history))
  {
  }

  /** The tool results the second request must carry: one per `tool_use`
      block, in order, with that block's id and its call's output. */
  function ExpectedResults(uses: seq<Block>, execute: Executor): (results: seq<Block>)
    requires forall i :: 0 <= i < |uses| ==> uses[i].ToolUse?
    requires forall i :: 0 <= i < |uses| ==> execute(uses[i].name, uses[i].input).Output?
    ensures |results| == |uses|
    ensures forall i :: 0 <= i < |uses| ==>
      results[i].ToolResult? && results[i].toolUseId == uses[i].id
  {
    seq(|uses|, i requires 0 <= i < |uses| =>
      ToolResult(uses[i].id, execute(uses[i].name, uses[i].input).text))
  }

  /** The calls the executor must receive: one per `tool_use` block, in order. */
  function ExpectedCalls(uses: seq<Block>): (calls: seq<ToolCall>)
    requires forall i :: 0 <= i < |uses| ==> uses[i].ToolUse?
    ensures |calls| == |uses|
  {
    seq(|uses|, i requires 0 <= i < |uses| => CallOf(uses[i]))
  }

  /** The loop without a failure produces exactly the expected calls and results. */
  lemma CompletedRun(blocks: seq<Block>, execute: Executor)
    requires forall i :: 0 <= i < |ToolUses(blocks)| ==>
      execute(ToolUses(blocks)[i].name, ToolUses(blocks)[i].input).Output?
    ensures var run := RunTools(blocks, execute);
      && run.failure.None?
      && run.calls == ExpectedCalls(ToolUses(blocks))
      && run.results == ExpectedResults(ToolUses(blocks), execute)
  {
    RunToolsCompletes(blocks, execute);
    RunToolsCallsInOrder(blocks, execute);
    RunToolsResults(blocks, execute);
  }

  /** The tool round trip when every tool returns: the executor is called once
      per `tool_use` block, in order; exactly two requests are made; the second
      has the same base parameters and system text, no tools and no
      `tool_choice`, and its messages are the query, the assistant's content
      and (only if there is a tool block) one user message with all results;
      the answer is its first text block, or the fallback for the original
      query without history if that call raises. */
  lemma ToolRoundTrip(base: BaseParams, prompt: string, respond: Responder, execute: Executor,
                      query: string, history: Option<string>, tools: Option<seq<ToolSchema>>,
                      response: Response)
    requires respond(FirstRequest(base, prompt, query, history, tools)) == Answered(response)
    requires response.stopReason == ToolUseStop
    requires forall i :: 0 <= i < |ToolUses(response.content)| ==>
      execute(ToolUses(response.content)[i].name, ToolUses(response.content)[i].input).Output?
    ensures var t := Generate(base, prompt, respond, Some(execute), query, history, tools);
      var uses := ToolUses(response.content);
      var first := FirstRequest(base, prompt, query, history, tools);
      && |t.requests| == 2
      && t.requests[0] == first
      && t.toolCalls == ExpectedCalls(uses)
      && var second := t.requests[1];
         && second.model == base.model && second.temperature == base.temperature
         && second.maxTokens == base.maxTokens
         && second.system == first.system
         && second.tools.None? && second.toolChoice.None?
         && second.messages ==
              [Message(User, PlainText(query)), Message(Assistant, Blocks(response.content))]
              + (if uses != [] then [Message(User, Blocks(ExpectedResults(uses, execute)))] else [])
         && t.result == (if AnswerText(respond(second)).Some? then AnswerText(respond(second)).value
                         else FallbackResponse(query, None))
  {
    CompletedRun(response.content, execute);
    FirstRequestShape(base, prompt, query, history, tools);
  }

  /** A tool that raises stops the round trip: the blocks before it were run
      in order, no second request is made, and the exception reaches the
      handlers of `generate_response`. */
  lemma ToolFailure(base: BaseParams, prompt: string, respond: Responder, execute: Executor,
                    query: string, history: Option<string>, tools: Option<seq<ToolSchema>>,
                    response: Response, j: nat, error: ErrorKind)
    requires respond(FirstRequest(base, prompt, query, history, tools)) == Answered(response)
    requires response.stopReason == ToolUseStop
    requires j < |ToolUses(response.content)|
    requires forall i :: 0 <= i < j ==>
      execute(ToolUses(response.content)[i].name, ToolUses(response.content)[i].input).Output?
    requires execute(ToolUses(response.content)[j].name, ToolUses(response.content)[j].input)
      == Raised(error)
    ensures var t := Generate(base, prompt, respond, Some(execute), query, history, tools);
      var uses := ToolUses(response.content);
      && t.requests == [FirstRequest(base, prompt, query, history, tools)]
      && t.toolCalls == ExpectedCalls(uses[..j + 1])
      && t.result == Route(error, query, history)
  {
    StoppedRun(response.content, execute, j, error);
  }

  /** The tool loop stopped by its j-th `tool_use` block: it fails with that
      block's exception after calling blocks 0..j in order. */
  lemma StoppedRun(blocks: seq<Block>, execute: Executor, j: nat, error: ErrorKind)
    requires j < |ToolUses(blocks)|
    requires forall i :: 0 <= i < j ==>
      execute(ToolUses(blocks)[i].name, ToolUses(blocks)[i].input).Output?
    requires execute(ToolUses(blocks)[j].name, ToolUses(blocks)[j].input) == Raised(error)
    ensures var run := RunTools(blocks, execute);
      run.failure == Some(error) && run.calls == ExpectedCalls(ToolUses(blocks)[..j + 1])
  {
    var uses := ToolUses(blocks);
    var run := RunTools(blocks, execute);
    RunToolsCallsInOrder(blocks, execute);
    RunToolsResults(blocks, execute);
    RunToolsFailure(blocks, execute);
    assert run.failure.Some?;
    var k := |run.calls| - 1;
    assert run.calls[k] == CallOf(uses[k]);
    assert k == j;
    assert run.calls == ExpectedCalls(uses[..j + 1]);
  }

  /** How many requests a call makes: two exactly when the first call answers
      with stop reason "tool_use", a tool manager is given and every tool
      returns; one otherwise. Every request carries the base parameters, and
      tools are called only on the round trip. */
  lemma RequestCount(base: BaseParams, prompt: string, respond: Responder,
                     execute: Option<Executor>, query: string, history: Option<string>,
                     tools: Option<seq<ToolSchema>>)
    ensures var t := Generate(base, prompt, respond, execute, query, history, tools);
      var outcome := respond(FirstRequest(base, prompt, query, history, tools));
      var roundTrip := outcome.Answered? && outcome.response.stopReason == ToolUseStop && execute.Some?;
      && t.requests[0] == FirstRequest(base, prompt, query, history, tools)
      && (|t.requests| == 2 <==>
            roundTrip && RunTools(outcome.response.content, execute.value).failure.None?)
      && (|t.requests| == 1 || |t.requests| == 2)
      && (forall r :: r in t.requests ==>
            r.model == base.model && r.temperature == base.temperature && r.maxTokens == base.maxTokens)
      && (t.toolCalls != [] ==> roundTrip)
  {
  }

  /** Example: "What is recursion?" with no tools and a direct answer
      "Recursion is..." returns exactly that text after one request. */
  lemma DirectScenario(base: BaseParams, prompt: string)
    ensures var respond := (r: Request) => Answered(Response([TextBlock("Recursion is...")], "end_turn"));
      var t := Generate(base, prompt, respond, None, "What is recursion?", None, None);
      t.result == "Recursion is..." && |t.requests| == 1 && t.toolCalls == []
  {
  }

  /** Example: one search tool; the first answer asks for `search_tool` with
      term "X" under id "t1", the tool returns "found X at minute 5", and the
      second answer is "X appears at minute 5.": that text is returned, the
      tool is called once with term "X", and the second request carries the
      result under id "t1". */
  lemma ToolScenario(base: BaseParams, prompt: string)
    ensures var schema := ToolSchema("search_tool", "search course content", "{}");
      var use := ToolUse("t1", "search_tool", map["term" := "X"]);
      var respond := (r: Request) =>
        if r.tools.Some? then Answered(Response([use], "tool_use"))
        else Answered(Response([TextBlock("X appears at minute 5.")], "end_turn"));
      var execute := (name: string, input: Arguments) => Output("found X at minute 5");
      var t := Generate(base, prompt, respond, Some(execute), "Search the intro lesson for X", None, Some([schema]));
      && t.result == "X appears at minute 5."
      && t.toolCalls == [ToolCall("search_tool", map["term" := "X"])]
      && |t.requests| == 2
      && t.requests[1].messages[2] == Message(User, Blocks([ToolResult("t1", "found X at minute 5")]))
  {
    var schema := ToolSchema("search_tool", "search course content", "{}");
    var use := ToolUse("t1", "search_tool", map["term" := "X"]);
    var content: seq<Block> := [use];
    var execute := (name: string, input: Arguments) => Output("found X at minute 5");
    assert content[..0] == [];
    assert RunTools(content, execute) ==
      ToolRun([ToolResult("t1", "found X at minute 5")], [ToolCall("search_tool", map["term" := "X"])], None);
  }
}
