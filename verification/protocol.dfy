/** A value that may be absent: Python's `Optional[...]` / `None`. */
module Optional {
  datatype Option<+T> = None | Some(value: T)
}

/** The message protocol of the remote completion service and the two
    collaborators the generator talks to: the service client and the tool
    executor. Both are outside the generator; each is given by a pure function
    (the outcome it produces for an input) and records, as ghost state, every
    call made to it, so that the number and order of calls can be stated. */
module Protocol {
  import opened Optional

  /** Tool arguments: argument name to value (values are kept as text). */
  type Arguments = map<string, string>

  /** One entry of a response's `content` list, or of a message's block list. */
  datatype Block =
    | TextBlock(text: string)
    | ToolUse(id: string, name: string, input: Arguments)
    | ToolResult(toolUseId: string, content: string)

  datatype Role = User | Assistant

  /** A message's `content`: a plain string or a list of blocks. */
  datatype Content = PlainText(text: string) | Blocks(blocks: seq<Block>)

  datatype Message = Message(role: Role, content: Content)

  /** A tool description handed through to the service unchanged. */
  datatype ToolSchema = ToolSchema(name: string, description: string, inputSchema: string)

  /** The value of the `tool_choice` key: `{"type": "auto"}`. */
  datatype ToolChoice = Auto

  /** The keyword arguments of one `messages.create` call; an absent key is `None`. */
  datatype Request = Request(
    model: string,
    temperature: int,
    maxTokens: nat,
    system: string,
    messages: seq<Message>,
    tools: Option<seq<ToolSchema>>,
    toolChoice: Option<ToolChoice>)

  datatype Response = Response(content: seq<Block>, stopReason: string)

  /** The kinds of exception the generator tells apart: a bad request (with
      the text of the error), a timeout, and anything else. */
  datatype ErrorKind = BadRequest(message: string) | Timeout | Other

  /** What one remote call does: answers, or raises. */
  datatype CallOutcome = Answered(response: Response) | Failed(error: ErrorKind)

  /** What one tool execution does: returns a string, or raises. */
  datatype ToolOutcome = Output(text: string) | Raised(error: ErrorKind)

  datatype ToolCall = ToolCall(name: string, input: Arguments)

  type Responder = Request -> CallOutcome
  type Executor = (string, Arguments) -> ToolOutcome

  /** The remote completion service as the generator sees it. */
  class Client {
    const respond: Responder
    ghost var requests: seq<Request>

    constructor (respond: Responder)
      ensures this.respond == respond && requests == []
    {
      this.respond := respond;
      requests := [];
    }

    /** `client.messages.create(**request)`. */
    method Create(request: Request) returns (outcome: CallOutcome)
      modifies this
      ensures outcome == respond(request)
      ensures requests == old(requests) + [request]
    {
      outcome := respond(request);
      requests := requests + [request];
    }
  }

  /** The tool executor (`tool_manager`). */
  class ToolManager {
    const execute: Executor
    ghost var calls: seq<ToolCall>

    constructor (execute: Executor)
      ensures this.execute == execute && calls == []
    {
      this.execute := execute;
      calls := [];
    }

    /** `tool_manager.execute_tool(name, **input)`. */
    method ExecuteTool(name: string, input: Arguments) returns (outcome: ToolOutcome)
      modifies this
      ensures outcome == execute(name, input)
      ensures calls == old(calls) + [ToolCall(name, input)]
    {
      outcome := execute(name, input);
      calls := calls + [ToolCall(name, input)];
    }
  }
}
