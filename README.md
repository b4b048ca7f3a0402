# Unified tool registry — a Dafny model

This project models the unified tool system of an MCP client. The system lets a
chat client call two kinds of tool through one interface, `IUnifiedTool`:

- **MCP tools.** Each one is listed by a connected Model Context Protocol session
  and wrapped in an `McpToolWrapper`.
- **In-process tools.** Each one is a public instance method that carries a
  `[Description]` attribute, wrapped in an `InProcessToolWrapper`.

`UnifiedToolManager` keeps the tools as an ordered, append-only list. It hands
them to the chat client as `AIFunction`s, looks them up by name ignoring case,
and streams the model's reply as its non-empty text increments.

Modules, one per concern:

- `Wrappers` (wrappers.dfy): `Option`, standing for a C# reference that may be null.
- `CaseFold` (casefold.dfy): `StringComparison.OrdinalIgnoreCase`, folding ASCII letters only.
- `Sdk` (sdk.dfy): the values that cross into Microsoft.Extensions.AI and
  ModelContextProtocol. The MCP session (`McpClient`) and the chat client
  (`ChatClient`) are objects whose answers are fixed functions of the request.
- `ToolSystem` (toolsystem.dfy): the two wrappers as classes with `const` (readonly)
  fields, and `UnifiedTool`, a tagged variant over them that plays the role of `IUnifiedTool`.
- `ToolManager` (toolmanager.dfy): the registry as a class with a `seq` field. The two
  registration methods are loops that append. The queries are functions that
  only read (`reads this`), so they cannot change the list.
- `RegistryLaws` (registrylaws.dfy): lemmas that relate several operations.

Calls into code that is not visible become parameters or fields:

- the MCP session's `ListToolsAsync` and `CallToolAsync`: `McpClient.listing` and `McpClient.callTool`;
- the chat client's two calls: `ChatClient.getResponse` and `ChatClient.getStreamingResponse`;
- `AIFunctionFactory.Create(method, instance)`: the parameter `create`;
- `AIFunction.InvokeAsync`: the parameter `invoke`;
- the reflection call `typeof(T).GetMethods()`: the parameter `methods`, the type's method table.

The code does not reject duplicate names, check for missing arguments or turn
tool failures into results, and it has no tool-calling loop of its own.
Duplicate names are kept, and `GetTool` returns the earlier entry. The loop
and its iteration cap are settings of the SDK's chat client, which this model
treats as opaque.

## Model

| member | source | states |
|---|---|---|
| `CaseFold.EqualsIgnoreCaseIsUpperEquality` | UnifiedToolManager.cs:48 | two names compare equal ignoring case exactly when their ASCII upper-case forms are equal |
| `CaseFold.EqualsIgnoreCaseIsEquivalence` | UnifiedToolManager.cs:48 | the ignore-case comparison is reflexive, symmetric and transitive |
| `CaseFold.AddSpellings` | UnifiedToolManager.cs:48 | "ADD", "Add" and "add" compare equal; "add" and "adds" do not |
| `CaseFold.EqualsIgnoreCase` | UnifiedToolManager.cs:48 | `Equals(..., StringComparison.OrdinalIgnoreCase)` under ASCII folding: names that compare equal have the same length, and every name compares equal to itself |
| `Sdk.ChatClient.GetResponseAsync` | UnifiedToolManager.cs:70 | one call records its request in the client's log, after the earlier ones, and returns the client's reply to that request |
| `ToolSystem.OrEmpty` | UnifiedToolSystem.cs:18 | a description is its text when present and "" when null (also used at lines 26 and 64) |
| `ToolSystem.NullToEmpty` | UnifiedToolSystem.cs:70 | a null result becomes "", any other result is kept, and the outcome is never null |
| `ToolSystem.ToDictionary` | UnifiedToolSystem.cs:33-37 | every argument key is in the copied dictionary, and every entry of the dictionary is one of the argument pairs |
| `ToolSystem.McpToolWrapper.Name` | UnifiedToolSystem.cs:17 | the wrapper's name is the listed MCP tool's name |
| `ToolSystem.McpToolWrapper.Description` | UnifiedToolSystem.cs:18 | the wrapper's description is the listed description, or "" when the listing gives none |
| `ToolSystem.InProcessToolWrapper.Name` | UnifiedToolSystem.cs:63 | the wrapper's name is the name of the function built at construction |
| `ToolSystem.InProcessToolWrapper.Description` | UnifiedToolSystem.cs:64 | the wrapper's description is that function's description, or "" when it has none |
| `ToolSystem.InProcessToolWrapper.ToAIFunction` | UnifiedToolSystem.cs:66 | returns the one function built at construction, every time, named and described as the wrapper |
| `ToolSystem.UnifiedTool.Name` | UnifiedToolSystem.cs:8 | through the interface, an MCP tool is named as listed and an in-process tool as its function |
| `ToolSystem.UnifiedTool.Description` | UnifiedToolSystem.cs:9 | through the interface, the description is the adapter's description with null read as "" |
| `ToolSystem.ToDictionaryKeys` | UnifiedToolSystem.cs:33-37 | the copied dictionary has exactly the keys that occur in the arguments |
| `ToolSystem.ToDictionaryLastWins` | UnifiedToolSystem.cs:33-37 | each key maps to the value of its last occurrence, so for a repeated key the later value wins |
| `ToolSystem.McpToolWrapper.constructor` | UnifiedToolSystem.cs:15 | the wrapper captures the listed tool and the session that serves it |
| `ToolSystem.McpToolWrapper.ToAIFunction` | UnifiedToolSystem.cs:20-27 | the function is named after the MCP tool, its description is present and equals the wrapper's description (null read as ""), and its target is this wrapper's tool on this session |
| `ToolSystem.McpToolWrapper.InvokeAsync` | UnifiedToolSystem.cs:30-46 | the arguments are copied into a dictionary, the session is called with the wrapper's own tool name and that dictionary, and the response content is returned unchanged |
| `ToolSystem.InProcessToolWrapper.constructor` | UnifiedToolSystem.cs:56-61 | the function is built once, from the instance and the method, and stored with them |
| `ToolSystem.InProcessToolWrapper.InvokeAsync` | UnifiedToolSystem.cs:68-71 | the result is the wrapped function's result, or "" when that result is null; it is never null |
| `ToolSystem.UnifiedTool.ToAIFunction` | UnifiedToolSystem.cs:17-66 | for both kinds of tool, the function given to the chat client has the tool's name, and its description (null read as "") is the tool's description; an in-process tool returns its one stored function every time |
| `ToolSystem.UnifiedTool.InvokeAsync` | UnifiedToolSystem.cs:30-71 | one call through the interface behaves as the MCP forward or as the in-process call with null read as "" |
| `ToolManager.NameMatches` | UnifiedToolManager.cs:48 | the tool's name matches a name exactly when that name, compared against the tool's name the other way round, matches: the order of the two sides of `Equals` does not matter |
| `ToolManager.IsDescribedMethod` | UnifiedToolManager.cs:30-31 | a method is taken exactly when it is public, not static and carries a `[Description]` attribute; failing any of the three excludes it |
| `ToolManager.MessagesToString` | UnifiedToolManager.cs:72 | as written, rendering the reply's message list gives the list's type name, whatever the messages |
| `ToolManager.FinalText` | UnifiedToolManager.cs:71 | as intended, the answer is the text of the reply's last message, or "" when the reply has none |
| `ToolManager.DescribedMethods` | UnifiedToolManager.cs:30-31 | the filter keeps at most as many methods as the table has, and every method it keeps is a described public instance method |
| `ToolManager.NonEmptyTexts` | UnifiedToolManager.cs:84-90 | there are at most as many chunks as updates, and every chunk is the text of some update |
| `ToolManager.FirstMatch` | UnifiedToolManager.cs:48 | the position found holds a matching name and no earlier position does; no position is found only when no name matches |
| `ToolManager.AIFunctions` | UnifiedToolManager.cs:42 | one function per tool, position by position |
| `ToolManager.UserHistory` | UnifiedToolManager.cs:78 | the history is one user message holding the prompt (the same construction is at line 64) |
| `ToolManager.UnifiedToolManager.constructor` | UnifiedToolManager.cs:9-15 | a new manager has no tools and keeps its chat client |
| `ToolManager.UnifiedToolManager.RegisterMcpToolsAsync` | UnifiedToolManager.cs:18-25 | appends exactly one new wrapper per listed MCP tool, in listing order, bound to that session; the earlier entries are unchanged and no entry occurs twice |
| `ToolManager.UnifiedToolManager.RegisterInProcessTool` | UnifiedToolManager.cs:28-37 | appends exactly one new wrapper per public instance method with a `[Description]` attribute, in reflection order, each holding the function the factory built for it; the earlier entries are unchanged and no entry occurs twice |
| `ToolManager.UnifiedToolManager.GetAllAIFunctions` | UnifiedToolManager.cs:40-43 | as many functions as tools, in registration order, each named and described as its tool, with an in-process tool's own stored function |
| `ToolManager.UnifiedToolManager.GetTool` | UnifiedToolManager.cs:46-49 | returns the earliest registered tool whose name equals the argument ignoring case; returns None exactly when no tool's name matches |
| `ToolManager.UnifiedToolManager.ToolOptions` | UnifiedToolManager.cs:79-82 | the chat options list every registered tool's function, in registration order (the same construction is at lines 65-68) |
| `ToolManager.UnifiedToolManager.ChatAsync` | UnifiedToolManager.cs:62-73 | exactly one request is appended to the client's request log: a history of one user message holding the prompt, with all registered functions in registration order; the answer is the `ToString()` of the reply's message list, which is that list's type name |
| `ToolManager.UnifiedToolManager.ChatAnswerAsync` | UnifiedToolManager.cs:62-71 | exactly one request is logged, the same as ChatAsync's; the answer is the text of the final message of the reply to it, or "" when there is none |
| `ToolManager.UnifiedToolManager.ChatStreamAsync` | UnifiedToolManager.cs:76-91 | the client is asked with a history of one user message holding the prompt and with all registered functions; then exactly the non-null, non-empty update texts are yielded, in arrival order |
| `RegistryLaws.FirstMatchIgnoresCase` | UnifiedToolManager.cs:48 | two spellings that are equal ignoring case find the same position in any tool list |
| `RegistryLaws.GetToolIgnoresCase` | UnifiedToolManager.cs:46-49 | GetTool gives the same answer for spellings that are equal ignoring case; in particular GetTool("ADD") equals GetTool("add") |
| `RegistryLaws.FirstMatchAt` | UnifiedToolManager.cs:48 | a matching position with no match before it is the position the lookup finds |
| `RegistryLaws.FirstMatchAfterAppend` | UnifiedToolManager.cs:23 | appending tools keeps every successful lookup; a failed lookup then finds the first match among the new tools, offset by the old length |
| `RegistryLaws.RegistrationKeepsLookups` | UnifiedToolManager.cs:35 | since registration only appends, a name that resolved before a registration resolves to the same tool after it |
| `RegistryLaws.DuplicateNameKeepsEarlier` | UnifiedToolManager.cs:48 | with two matching names in the list, the lookup stops at or before the earlier one |
| `RegistryLaws.GetToolIgnoresLaterDuplicate` | UnifiedToolManager.cs:46-49 | given two entries whose names both match, GetTool returns a tool, and never the later of the two (that both entries stay is the prefix clause of the two registration methods) |
| `RegistryLaws.GetToolAgreesWithFunctions` | UnifiedToolManager.cs:40-49 | a name resolves exactly when some function offered to the chat client carries it, ignoring case |
| `RegistryLaws.AIFunctionsAppend` | UnifiedToolManager.cs:42 | the function list of an extended registry is the old list followed by the new tools' functions |
| `RegistryLaws.DescribedMethodsMembership` | UnifiedToolManager.cs:30-31 | a method becomes a tool exactly when it is in the method table, public, an instance method, and carries a `[Description]` attribute |
| `RegistryLaws.DescribedMethodsAppend` | UnifiedToolManager.cs:30-31 | the filter keeps reflection order: it distributes over concatenation |
| `RegistryLaws.DescribedMethodsAreDescribed` | UnifiedToolManager.cs:30-35 | every method a wrapper is built for is a described public instance method of the table |
| `RegistryLaws.NonEmptyTextsAreNonEmpty` | UnifiedToolManager.cs:86 | no yielded chunk is empty |
| `RegistryLaws.NonEmptyTextsAppend` | UnifiedToolManager.cs:84-90 | the chunks of two consecutive runs of updates are the first run's chunks followed by the second's |
| `RegistryLaws.ConcatAppendOne` | UnifiedToolManager.cs:88 | joining one more chunk appends its text |
| `RegistryLaws.ConcatNonEmptyTexts` | UnifiedToolManager.cs:84-90 | joining the yielded chunks gives all the text the client streamed, null counted as empty |
| `RegistryLaws.ChatAsyncIgnoresReply` | UnifiedToolManager.cs:72 | as written, replies answering "5" and "7" give the same ChatAsync answer, although their final texts differ |
| `RegistryLaws.FinalTextIsLastReply` | UnifiedToolManager.cs:71 | as intended, the answer is the text of the reply's last message, and "" for a reply with no message |

## Findings

| source | as written | input that shows it | evidently intended | confidence | as-written member | corrected member |
|---|---|---|---|---|---|---|
| UnifiedToolManager.cs:72 | `ChatAsync` returns `response.Messages.ToString()`. `Messages` is a `List<ChatMessage>`, and `List<T>` does not override `ToString`, so the answer is always the list's type name | any two replies, e.g. one whose final message is "5" and one whose final message is "7": both give ``System.Collections.Generic.List`1[Microsoft.Extensions.AI.ChatMessage]`` | return the text of the reply's final message, as the commented-out line 71 does | high that the answer ignores the reply; not executed | `ToolManager.UnifiedToolManager.ChatAsync`, `RegistryLaws.ChatAsyncIgnoresReply` | `ToolManager.UnifiedToolManager.ChatAnswerAsync`, `RegistryLaws.FinalTextIsLastReply` |

## Left out

- `ListTools` (UnifiedToolManager.cs:52-59) only writes to the console.
- `RegisterInProcessTool`: the model's factory `create` is total, so every described method gets a wrapper. In the code `AIFunctionFactory.Create` runs inside the loop (UnifiedToolSystem.cs:60) and can throw, for an open generic method or a null instance for example. The wrappers already appended then stay and the exception propagates, so registration is not all-or-nothing. The model does not capture that partial outcome.
- `GetAllAIFunctions`: the code's `_tools.Select(t => t.ToAIFunction())` is lazy. It reads `_tools` only when enumerated and builds a new MCP `AIFunction` on every enumeration. The model returns a snapshot of the list at the call. Both callers (UnifiedToolManager.cs:67 and :81) call `.ToList()` at once, so no caller sees the difference.
- The MCP session and the chat client are modelled as fixed functions of their request. Only the calls from `ChatAsync` go through a method that logs the request. `ChatStreamAsync` applies the streaming function directly. The model has no transport, no timeouts, no exceptions and no nondeterminism. An exception thrown by `CallToolAsync` or by the wrapped function propagates unchanged in the code, and the model has no such path.
- `McpToolWrapper.InvokeAsync` ignores the response's `isError` flag, as the code does.
- `AIFunctionFactory.Create` derives names, descriptions and parameter schemas by reflection. That derivation is not modelled. For in-process tools the factory is the opaque parameter `create`. For MCP tools the model keeps only the explicit name and description the code passes, plus the call target.
- The marshalling of arguments by the SDK when it calls a function is not modelled. `AIFunctionArguments` is the sequence of pairs its enumerator yields.
- Case-insensitive comparison folds only the ASCII letters a–z. `OrdinalIgnoreCase` also folds other Unicode letters.
- Cancellation tokens and asynchrony are left out. Each `async` call is one synchronous step, and `ChatStreamAsync` returns all its chunks at once rather than yielding them one by one.
- The tool-calling loop, its iteration cap of 10 and sequential invocation are configured on the SDK (Program.cs:8-13). The repository does not implement them.
- Program.cs, OllamaSamples.cs, CalculatorService.cs and WeatherService.cs are console, process and network plumbing, or sample payloads. They are not part of this model.
