# Response generator of a course-material chat assistant, in Dafny

This project models `AIGenerator` from `backend/ai_generator.py`. That class sits between a
chat front end and a remote language-model completion service that supports tool calls.
Given a user query, an optional conversation history, an optional list of tools and an
optional tool manager, `generate_response` always returns one string. It can get there in
three ways:

- **Direct answer.** One request goes to the service, and the answer's first text block is
  returned.
- **Tool round trip.** The answer asks for tools (stop reason `"tool_use"`). Each requested
  tool is run in order, its result is sent back, and one more request is made with the
  tools removed.
- **Degraded answer.** When something fails, the result is a canned fallback reply chosen
  by keywords in the query, or a short technical-difficulties message.

The model has five modules:

| module | file | models |
|---|---|---|
| `Text` | `text.dfy` | `str.lower()` (ASCII letters only, a character-by-character map proved idempotent), the substring test `w in s`, and `any(w in s for w in words)`; the two scans are proved against an existential specification |
| `Optional`, `Protocol` | `protocol.dfy` | Messages, content blocks (text, tool use, tool result), requests, responses and error kinds. Also the two collaborators: `Client`, the service, and `ToolManager`, the executor. Each is a pure function from input to outcome, plus a ghost log of every call made |
| `ToolLoop` | `tools.dfy` | The loop at lines 128-140, as the function `RunTools` over the blocks walked so far, checked against the reference filter `ToolUses` |
| `Fallback` | `fallback.dfy` | `_generate_fallback_response`: keyword classification, first match wins, and the four replies |
| `Generator` | `generator.dfy` | The request builder and exception routing. `Generate` and `RoundTrip` specify a whole call: its answer, the requests it sends and the tool calls it makes. The class `AIGenerator` has the imperative methods `GenerateResponse` and `HandleToolExecution`, and each method's postcondition equates its result and the new call logs with those functions |
| `GeneratorProperties` | `properties.dfy` | What a call promises, as lemmas over `Generate` that hold for every service and executor behaviour, and two fixed scenarios |

## Design decisions

- **The remote call.** The service is a `Client` object. Its constant `respond` maps a
  request to `Answered(response)` or `Failed(error)`, and its ghost `requests` log
  records every request. The tool manager works the same way, with `execute` and the
  `calls` log. Call counts and call order are therefore stated over the logs.
- **Exceptions.** They become values. An inner step ends in a `Completion`:
  `Returned(text)` or `Threw(error)`. Two boundaries turn an exception into a string.
  `Settle` uses the handlers in `Route`, the `try`/`except` at lines 84-107. `RoundTrip`
  turns a failed second call into the fallback for the original query without history,
  the `try`/`except` at lines 154-161.
- **Tool failure.** A tool that raises is not caught inside `_handle_tool_execution`,
  because line 131 lies outside the `try` at line 154. The exception therefore reaches the
  handlers of `generate_response`. The model follows the code. A tool that raises a
  timeout or any other error gets `fallback(query, history)`, which equals
  `fallback(query, None)` since the history is unused. A tool that raises a bad request
  that mentions "credit balance" also gets the fallback. A bad request that does not
  mention credit balance gets the technical-difficulties text.
- **No tool results.** The results message is added only when at least one `tool_use`
  block was run (line 143). With none, the second request ends with the assistant message.
- **Unreadable answers.** `response.content[0].text` raises when the content is empty or
  its first block is not text. This is modelled as `FirstText` returning `None`. After the
  first call, that takes the generic-exception route. After the second call, it takes that
  call's fallback.
- **The system prompt.** `SYSTEM_PROMPT` is kept verbatim as `Generator.SystemPrompt`. The
  class holds it in the constant field `systemPrompt`, fixed by the constructor, just as
  the base parameters are. The specification functions take the prompt as a parameter, so
  every property holds whatever the prompt text is.

## Model

| member | source | states |
|---|---|---|
| `Text.Lower` | backend/ai_generator.py:174 | `query.lower()` on ASCII text: same length, and each character is replaced by its lower-case form (a plain character map; `LowerIdempotent` is its property) |
| `Text.Contains` | backend/ai_generator.py:96 | the substring test `w in s` as a left-to-right scan; its contract is `ContainsOccurs` |
| `Text.ContainsAny` | backend/ai_generator.py:177 | `any(word in q for word in words)` as a scan over the list; its contract is `ContainsAnyOccurs` |
| `Text.LowerIdempotent` | backend/ai_generator.py:174 | lower-casing keeps the length, and lower-casing twice gives the same text as once |
| `Text.ContainsOccurs` | backend/ai_generator.py:96 | the scan used for `w in s` is true exactly when `w` occurs at some offset of `s` |
| `Text.ContainsAnyOccurs` | backend/ai_generator.py:177 | `any(word in q for word in words)` is true exactly when some listed word occurs in `q` |
| `Fallback.Classify` | backend/ai_generator.py:174-210 | the if/elif chain on the lower-cased query; its contract is `ClassifyPriority` and `ProgrammingBeatsQuestion` |
| `Fallback.FallbackResponse` | backend/ai_generator.py:163-220 | `_generate_fallback_response`; its contract is `ClassifyPriority`, `FallbackEchoesQuery`, `FixedRepliesIgnoreQuery`, `FallbackIgnoresHistory`, `FallbackOpening` and `RepliesDistinct` |
| `Fallback.ClassifyPriority` | backend/ai_generator.py:174-210 | each category is chosen exactly when a word of its list occurs in the lower-cased query and no word of an earlier list does (programming, then course, then interrogative, then general) |
| `Fallback.ProgrammingBeatsQuestion` | backend/ai_generator.py:177-199 | a query containing both a programming word and an interrogative word gets the programming reply |
| `Fallback.ProgrammingExample` | backend/ai_generator.py:177-186 | "how do I write a python function" gets the programming reply, not the interrogative one |
| `Fallback.FallbackIgnoresHistory` | backend/ai_generator.py:163-220 | the fallback reply is the same for any two histories |
| `Fallback.FallbackEchoesQuery` | backend/ai_generator.py:199-220 | programming and course categories give their fixed reply; the interrogative and general replies hold the original, un-lowered query between double quotes right after their fixed lead |
| `Fallback.FixedRepliesIgnoreQuery` | backend/ai_generator.py:177-197 | two queries of the programming (or of the course) category get identical replies, whatever their text and history |
| `Fallback.FallbackOpening` | backend/ai_generator.py:178-211 | every fallback reply opens with "I'm currently " |
| `Fallback.ReplyMarks` | backend/ai_generator.py:178-211 | the characters that tell the replies apart: the first letter after "I'm currently " is 'e' for the programming and interrogative replies and 'u' for the course and general ones, and the next word's first letter separates each pair |
| `Fallback.RepliesDistinct` | backend/ai_generator.py:177-220 | queries of different categories never get the same reply: each category has its own template |
| `ToolLoop.RunTools` | backend/ai_generator.py:128-140 | the tool loop over the blocks walked so far: results, calls and the exception that stopped it; its contract is `RunToolsCallsInOrder`, `RunToolsResults`, `RunToolsFailure`, `RunToolsCompletes` and `FailureSticks` |
| `ToolLoop.FailureSticks` | backend/ai_generator.py:129-134 | once a tool has raised, no later block changes the loop's outcome: the exception leaves the loop |
| `ToolLoop.RunToolsCallsInOrder` | backend/ai_generator.py:128-134 | the executor is called once per `tool_use` block, in the order of the content, with that block's name and input, up to the first call that raises, and for every block when none raises |
| `ToolLoop.RunToolsResults` | backend/ai_generator.py:136-140 | without a failure, there is one result per `tool_use` block and the i-th carries the i-th block's id and that call's output |
| `ToolLoop.RunToolsFailure` | backend/ai_generator.py:131-134 | with a failure, the last call made is the one that raised, with that exception, and every earlier call returned |
| `ToolLoop.RunToolsCompletes` | backend/ai_generator.py:129-140 | the loop runs to the end exactly when every `tool_use` block's call returns |
| `Protocol.Client.Create` | backend/ai_generator.py:85 | the outcome is the service's outcome for the request, and the request is appended to the client's log |
| `Protocol.ToolManager.ExecuteTool` | backend/ai_generator.py:131-134 | the outcome is the executor's outcome for (name, input), and the call is appended to the manager's log |
| `Generator.SystemContent` | backend/ai_generator.py:65-69 | the system text with or without the history; its contract is `SystemContentShape` |
| `Generator.FirstRequest` | backend/ai_generator.py:72-81 | the first request; its contract is `FirstRequestShape` |
| `Generator.FollowUpRequest` | backend/ai_generator.py:121-151 | the second request; its contract is `ToolRoundTrip` |
| `Generator.Route` | backend/ai_generator.py:94-107 | the exception handlers of `generate_response`; its contract is `RouteSpec` |
| `Generator.Dispatch` | backend/ai_generator.py:84-92 | the body of the `try` after the first call; its contract is `DirectAnswer`, `FirstCallFails` and `RequestCount` |
| `Generator.RoundTrip` | backend/ai_generator.py:109-161 | `_handle_tool_execution` as a function of the service and the executor; its contract is `ToolRoundTrip`, `ToolFailure` and `CompletedRun` |
| `Generator.Generate` | backend/ai_generator.py:47-107 | `generate_response`: answer, requests sent and tool calls made; its contract is `FirstRequestShape`, `DirectAnswer`, `FirstCallFails`, `ToolRoundTrip`, `ToolFailure`, `RequestCount` and the two scenarios |
| `Generator.AIGenerator.constructor` | backend/ai_generator.py:36-45 | the base parameters are the model, temperature 0 and 800 tokens, and the prompt is `SYSTEM_PROMPT`; all are constant fields that nothing can change |
| `Generator.AIGenerator.GenerateResponse` | backend/ai_generator.py:47-107 | returns `Generate(...)`'s answer (a string on every path); the requests logged by the client are exactly `Generate`'s requests, and the calls logged by the tool manager exactly its tool calls |
| `Generator.AIGenerator.HandleToolExecution` | backend/ai_generator.py:109-161 | the loop keeps the collected results and the executor's log equal to `RunTools` over the blocks walked so far; the method ends as `RoundTrip` says, with the requests and tool calls it lists |
| `GeneratorProperties.SystemContentShape` | backend/ai_generator.py:65-69 | the system text is the prompt alone when the history is `None` or empty; otherwise it is the prompt, then "\n\nPrevious conversation:\n", then exactly the history |
| `GeneratorProperties.FirstRequestShape` | backend/ai_generator.py:72-81 | the first request has the base model, temperature and token ceiling, the system text, exactly one user message holding the query, and `tools` (unchanged) and `tool_choice` auto present if and only if the tool list is present and non-empty |
| `GeneratorProperties.RouteSpec` | backend/ai_generator.py:94-107 | a bad request whose lower-cased text contains "credit balance" gets the fallback for (query, history); any other bad request gets the technical-difficulties text, which carries the error text and is never a fallback reply; a timeout or other error gets the fallback |
| `GeneratorProperties.FirstCallFails` | backend/ai_generator.py:84-107 | if the first call raises, exactly one request is made, no tool is called, and the answer is the handlers' string for that error |
| `GeneratorProperties.DirectAnswer` | backend/ai_generator.py:85-92 | if the stop reason is not "tool_use" or no tool manager is given, exactly one request is made, no tool is called, and the answer is the first block's text (or the fallback when that block is missing or not text) |
| `GeneratorProperties.CompletedRun` | backend/ai_generator.py:128-140 | when every tool returns, the loop's calls are exactly one per `tool_use` block in order, and its results are exactly the expected (id, output) blocks |
| `GeneratorProperties.ToolRoundTrip` | backend/ai_generator.py:121-161 | when every tool returns: tools are called once per block, in order; exactly two requests are made; the second has the base parameters, the same system text, no tools and no `tool_choice`; its messages are the user query, the assistant content, and one user message with all results in block order, present only if there is a result; the answer is its first text block, or the fallback for the original query without history |
| `GeneratorProperties.StoppedRun` | backend/ai_generator.py:128-134 | if the j-th `tool_use` block's call raises and the earlier ones return, the loop fails with that exception after calling blocks 0..j in order |
| `GeneratorProperties.ToolFailure` | backend/ai_generator.py:94-134 | if the j-th `tool_use` block's call raises and the earlier ones return, the calls made are those of blocks 0..j, no second request is sent, and the answer is the handlers' string for that error with the original query and history |
| `GeneratorProperties.RequestCount` | backend/ai_generator.py:72-156 | the first request is always the one built from the inputs; two requests are made exactly when the first answer asks for tools, a tool manager is given and every tool returns, one otherwise; every request carries the base parameters; tools are called only on the round trip |
| `GeneratorProperties.DirectScenario` | backend/ai_generator.py:84-92 | "What is recursion?" with no tools and a direct answer "Recursion is..." returns exactly that text after one request |
| `GeneratorProperties.ToolScenario` | backend/ai_generator.py:84-156 | one search tool, one `tool_use` block with id "t1", a tool output and a final text: the final text is returned, the tool is called once with term "X", and the second request carries the result under id "t1" |

## Left out

- The `anthropic` client, the API key, the HTTP transport and the 30-second timeout (line 37) are not modelled. The service is the `respond` function of a `Client`. A timeout is the error kind `Timeout`.
- `Protocol.ToolManager.ExecuteTool`: the executor's outcome is a function of (name, input). Two identical `tool_use` blocks in one response therefore get the same outcome, whereas a stateful tool could answer them differently. No property here depends on this.
- `Protocol.Client.Create`: the service's answer is a function of the request, so the same request always gets the same outcome. Within one `generate_response` call this restricts nothing, because the second request always has more messages than the first.
- The Python exception hierarchy is reduced to three kinds: `BadRequest(text)` (where the text stands for `str(e)`), `Timeout`, and `Other`.
- Logging (lines 95, 102, 106 and 158) is not modelled. It has no functional effect.
- `Text.Lower` changes only ASCII letters. Python's `str.lower()` also lower-cases other Unicode letters, which can matter only when a keyword would match through a non-ASCII capital.
- `Fallback.FallbackResponse`: each reply keeps its opening line verbatim. Where the query is quoted, it also keeps the exact text around the quotes and the closing line. The lines of advice in between are not part of this model, because long string literals make every proof that unfolds them expensive. The replies still differ from each other within their opening line, which `Fallback.RepliesDistinct` proves.
- Tool inputs are maps from argument name to text. The `**content_block.input` splat becomes passing that map. Tool schemas pass through unchanged, so their inner structure is not modelled.
- The tool implementations behind `tool_manager.execute_tool` are not modelled. The executor is the `execute` function of a `ToolManager`.
- `Generator.AIGenerator.HandleToolExecution` requires that a first message, if present, holds plain text. This is true of the only request it is ever given, the one built by `generate_response`. It leaves out what Python would do with a non-string query at line 160.
- A tool manager that is present but false in Python's sense (an object defining `__bool__` or `__len__`) is treated as present.
- The history is a string or `None`. A history of another type is not modelled.
- Concurrency and cancellation are not modelled. A call shares nothing mutable with other calls.
