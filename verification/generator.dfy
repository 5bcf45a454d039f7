/** The response generator (`AIGenerator`): builds the request for the remote
    completion service, dispatches on the stop reason, runs the one tool round
    trip, and turns every exception into a returned string.

    The functions below define what one `generate_response` call does — its
    answer, the requests it sends and the tool calls it makes — for a given
    behaviour of the service and of the tool executor; the class's methods do
    the same step by step and are proved to agree with them. */
module Generator {
  import opened Optional
  import opened Text
  import opened Protocol
  import opened ToolLoop
  import opened Fallback

  /** `AIGenerator.SYSTEM_PROMPT`; the class holds it as a constant field. */
  const SystemPrompt: string :=
    " You are an AI assistant specialized in course materials and educational content with access to a comprehensive search tool for course information.\n"
    + "\n"
    + "Search Tool Usage:\n"
    + "- Use the search tool **only** for questions about specific course content or detailed educational materials\n"
    + "- **One search per query maximum**\n"
    + "- Synthesize search results into accurate, fact-based responses\n"
    + "- If search yields no results, state this clearly without offering alternatives\n"
    + "\n"
    + "Response Protocol:\n"
    + "- **General knowledge questions**: Answer using existing knowledge without searching\n"
    + "- **Course-specific questions**: Search first, then answer\n"
    + "- **No meta-commentary**:\n"
    + " - Provide direct answers only \U{2014} no reasoning process, search explanations, or question-type analysis\n"
    + " - Do not mention \"based on the search results\"\n"
    + "\n"
    + "\n"
    + "All responses must be:\n"
    + "1. **Brief, Concise and focused** - Get to the point quickly\n"
    + "2. **Educational** - Maintain instructional value\n"
    + "3. **Clear** - Use accessible language\n"
    + "4. **Example-supported** - Include relevant examples when they aid understanding\n"
    + "Provide only the direct answer to what was asked.\n"

  /** The header placed between the system prompt and the history. */
  const HistoryHeader: string := "\n\nPrevious conversation:\n"

  /** The stop reason that asks for tools to be run. */
  const ToolUseStop: string := "tool_use"

  /** The query used when the first request has no message. */
  const NoQuery: string := "your question"

  /** The parameters shared by every request: model, temperature, token ceiling. */
  datatype BaseParams = BaseParams(model: string, temperature: int, maxTokens: nat)

  /** What one step of the generator ends in: a string it returns, or an
      exception it raises. */
  datatype Completion = Returned(text: string) | Threw(error: ErrorKind)

  /** A result together with the requests sent to the service and the calls
      made to the tool executor, in order. */
  datatype Trace<T> = Trace(result: T, requests: seq<Request>, toolCalls: seq<ToolCall>)

  /** The system text: the prompt alone when there is no history (`None` or
      empty), otherwise the prompt, the header and the history. */
  function SystemContent(prompt: string, history: Option<string>): string
  {
    if history.Some? && history.value != "" then prompt + HistoryHeader + history.value
    else prompt
  }

  /** Python's truth value of the `tools` argument. */
  predicate HasTools(tools: Option<seq<ToolSchema>>)
  {
    tools.Some? && tools.value != []
  }

  /** The request of the first call. */
  function FirstRequest(base: BaseParams, prompt: string, query: string, history: Option<string>,
                        tools: Option<seq<ToolSchema>>): Request
  {
    var request := Request(base.model, base.temperature, base.maxTokens, SystemContent(prompt, history),
                           [Message(User, PlainText(query))], None, None);
    if HasTools(tools) then request.(tools := tools, toolChoice := Some(Auto)) else request
  }

  /** `content[0].text`, or `None` where that access raises (an empty list, or
      a first block that is not text). */
  function FirstText(content: seq<Block>): Option<string>
  {
    if content != [] && content[0].TextBlock? then Some(content[0].text) else None
  }

  /** The text of a call's answer, or `None` when the call raised or the
      answer's first block is not text. */
  function AnswerText(outcome: CallOutcome): Option<string>
  {
    match outcome
    case Answered(response) => FirstText(response.content)
    case Failed(_) => None
  }

  /** The request of the second call: the first call's messages, the
      assistant's content, and the batched tool results when there are any;
      the same system text; no tools. */
  function FollowUpRequest(base: BaseParams, first: Request, content: seq<Block>,
                           results: seq<Block>): Request
  {
    var messages := first.messages + [Message(Assistant, Blocks(content))];
    Request(base.model, base.temperature, base.maxTokens, first.system,
            if results != [] then messages + [Message(User, Blocks(results))] else messages,
            None, None)
  }

  /** The first message, where there is one, carries the query as plain text. */
  predicate QueryFirst(messages: seq<Message>)
  {
    messages != [] ==> messages[0].content.PlainText?
  }

  /** The query read back from the first message. */
  function OriginalQuery(messages: seq<Message>): string
    requires QueryFirst(messages)
  {
    if messages != [] then messages[0].content.text else NoQuery
  }

  /** `_handle_tool_execution`: a raising tool leaves the round trip with its
      exception and no second call; otherwise one more call is made, and a
      failure of that call (or an answer without leading text) gives the
      fallback for the original query without history. */
  function RoundTrip(base: BaseParams, respond: Responder, execute: Executor,
                     initial: Response, first: Request): Trace<Completion>
    requires QueryFirst(first.messages)
  {
    var run := RunTools(initial.content, execute);
    if run.failure.Some? then Trace(Threw(run.failure.value), [], run.calls)
    else
      var second := FollowUpRequest(base, first, initial.content, run.results);
      var text := AnswerText(respond(second));
      var answer := if text.Some? then text.value
                    else FallbackResponse(OriginalQuery(first.messages), None);
      Trace(Returned(answer), [second], run.calls)
  }

  /** The text returned for a bad request that is not about credit: a fixed
      apology followed by the error's text. */
  const Apology: string := "Sorry, "
  const TechnicalLead: string :=
    Apology + "I'm experiencing technical difficulties. Please try again later. (Error: "

  function TechnicalDifficulties(message: string): string
  {
    TechnicalLead + message + ")"
  }

  /** The exception handlers of `generate_response`. */
  function Route(error: ErrorKind, query: string, history: Option<string>): string
  {
    match error
    case BadRequest(message) =>
      if Contains(Lower(message), "credit balance") then FallbackResponse(query, history)
      else TechnicalDifficulties(message)
    case Timeout => FallbackResponse(query, history)
    case Other => FallbackResponse(query, history)
  }

  /** What follows the first call (the body of the `try` in
      `generate_response`): the tool round trip when the stop reason asks for
      tools and a tool manager is given, otherwise the first text block. */
  function Dispatch(base: BaseParams, respond: Responder, execute: Option<Executor>,
                    first: Request, outcome: CallOutcome): Trace<Completion>
    requires QueryFirst(first.messages)
  {
    match outcome
    case Failed(e) => Trace(Threw(e), [], [])
    case Answered(response) =>
      if response.stopReason == ToolUseStop && execute.Some? then
        RoundTrip(base, respond, execute.value, response, first)
      else
        var text := FirstText(response.content);
        Trace(if text.Some? then Returned(text.value) else Threw(Other), [], [])
  }

  /** The `except` handlers of `generate_response`: an exception that reaches
      them becomes a returned string. */
  function Settle(completion: Completion, query: string, history: Option<string>): string
  {
    match completion
    case Returned(text) => text
    case Threw(e) => Route(e, query, history)
  }

  /** `generate_response`: what it returns, which requests it sends and which
      tool calls it makes. `execute` is `None` when no tool manager is given. */
  function Generate(base: BaseParams, prompt: string, respond: Responder, execute: Option<Executor>,
                    query: string, history: Option<string>,
                    tools: Option<seq<ToolSchema>>): Trace<string>
  {
    var first := FirstRequest(base, prompt, query, history, tools);
    var rest := Dispatch(base, respond, execute, first, respond(first));
    Trace(Settle(rest.result, query, history), [first] + rest.requests, rest.toolCalls)
  }

  /** The executor of an optional tool manager. */
  function ExecutorOf(toolManager: ToolManager?): Option<Executor>
  {
    if toolManager == null then None else Some(toolManager.execute)
  }

  class AIGenerator {
    const systemPrompt: string
    const model: string
    const baseParams: BaseParams
    const client: Client

    /** `AIGenerator(api_key, model)`: the client stands for the one built
        from the key; the prompt and the base parameters are fixed here and
        never change. */
    constructor (model: string, client: Client)
      ensures systemPrompt == SystemPrompt
      ensures this.model == model && this.client == client
      ensures baseParams == BaseParams(model, 0, 800)
    {
      systemPrompt := SystemPrompt;
      this.model := model;
      this.client := client;
      baseParams := BaseParams(model, 0, 800);
    }

    method GenerateResponse(query: string, history: Option<string>,
                            tools: Option<seq<ToolSchema>>, toolManager: ToolManager?)
      returns (answer: string)
      modifies client, toolManager
      ensures var t := Generate(baseParams, systemPrompt, client.respond, ExecutorOf(toolManager), query, history, tools);
        && answer == t.result
        && client.requests == old(client.requests) + t.requests
        && (toolManager != null ==> toolManager.calls == old(toolManager.calls) + t.toolCalls)
    {
      var params := Request(baseParams.model, baseParams.temperature, baseParams.maxTokens,
                            SystemContent(systemPrompt, history), [Message(User, PlainText(query))], None, None);
      if tools.Some? && tools.value != [] {
        params := params.(tools := tools);
        params := params.(toolChoice := Some(Auto));
      }
      assert params == FirstRequest(baseParams, systemPrompt, query, history, tools);
      var outcome := client.Create(params);
      ghost var rest := Dispatch(baseParams, client.respond, ExecutorOf(toolManager), params, outcome);
      ghost var requests1 := client.requests;
      var completion: Completion;
      if outcome.Answered? && outcome.response.stopReason == ToolUseStop && toolManager != null {
        completion := HandleToolExecution(outcome.response, params, toolManager);
        assert client.requests == requests1 + rest.requests;
      } else {
        completion := match outcome
          case Failed(e) => Threw(e)
          case Answered(response) =>
            var text := FirstText(response.content);
            if text.Some? then Returned(text.value) else Threw(Other);
        assert rest.requests == [] && rest.toolCalls == [];
      }
      assert completion == rest.result;
      answer := Settle(completion, query, history);
    }

    method HandleToolExecution(initial: Response, params: Request, toolManager: ToolManager)
      returns (completion: Completion)
      requires QueryFirst(params.messages)
      modifies client, toolManager
      ensures var t := RoundTrip(baseParams, client.respond, toolManager.execute, initial, params);
        && completion == t.result
        && client.requests == old(client.requests) + t.requests
        && toolManager.calls == old(toolManager.calls) + t.toolCalls
    {
      var messages := params.messages;
      messages := messages + [Message(Assistant, Blocks(initial.content))];
      var toolResults: seq<Block> := [];
      var content := initial.content;
      ghost var execute := toolManager.execute;
      for i := 0 to |content|
        invariant var run := RunTools(content[..i], execute);
          && run.failure.None?
          && run.results == toolResults
          && toolManager.calls == old(toolManager.calls) + run.calls
        invariant client.requests == old(client.requests)
      {
        ghost var done := RunTools(content[..i], execute);
        assert content[..i + 1][..i] == content[..i];
        var block := content[i];
        if block.ToolUse? {
          var outcome := toolManager.ExecuteTool(block.name, block.input);
          match outcome {
            case Raised(e) =>
              assert RunTools(content[..i + 1], execute).failure == Some(e);
              FailureSticks(content, i + 1, execute);
              assert content[..|content|] == content;
              return Threw(e);
            case Output(text) =>
              toolResults := toolResults + [ToolResult(block.id, text)];
              assert RunTools(content[..i + 1], execute)
                == ToolRun(toolResults, done.calls + [ToolCall(block.name, block.input)], None);
          }
        } else {
          assert RunTools(content[..i + 1], execute) == done;
        }
      }
      assert content[..|content|] == content;
      if toolResults != [] {
        messages := messages + [Message(User, Blocks(toolResults))];
      }
      var finalParams := Request(baseParams.model, baseParams.temperature, baseParams.maxTokens,
                                 params.system, messages, None, None);
      assert finalParams == FollowUpRequest(baseParams, params, content, toolResults);
      var outcome := client.Create(finalParams);
      var text := AnswerText(outcome);
      if text.Some? {
        completion := Returned(text.value);
      } else {
        completion := Returned(FallbackResponse(OriginalQuery(params.messages), None));
      }
    }
  }
}
