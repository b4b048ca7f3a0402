/**
 * The unified tool registry (UnifiedToolManager.cs): an ordered, append-only
 * list of tools, filled from MCP listings and from the described methods of
 * in-process objects, queried by position and by case-insensitive name, and
 * handed to the chat client as its tool list.
 */
module ToolManager {
  import opened Wrappers
  import opened CaseFold
  import opened Sdk
  import opened ToolSystem

  /** `tool.Name.Equals(name, StringComparison.OrdinalIgnoreCase)`. */
  predicate NameMatches(tool: UnifiedTool, name: string)
    ensures NameMatches(tool, name) <==> EqualsIgnoreCase(name, tool.Name())
  {
    EqualsIgnoreCase(tool.Name(), name)
  }

  /** The position of the first tool whose name matches, if any (`FirstOrDefault`). */
  function FirstMatch(tools: seq<UnifiedTool>, name: string): (k: Option<nat>)
    ensures k.Some? ==> k.value < |tools| && NameMatches(tools[k.value], name)
    ensures k.Some? ==> forall j :: 0 <= j < k.value ==> !NameMatches(tools[j], name)
    ensures k.None? ==> forall j :: 0 <= j < |tools| ==> !NameMatches(tools[j], name)
  {
    if tools == [] then None
    else if NameMatches(tools[0], name) then Some(0)
    else
      match FirstMatch(tools[1..], name)
      case None => None
      case Some(j) => Some(j + 1)
  }

  /** The tools as functions, one per tool, position by position (`Select(t => t.ToAIFunction())`). */
  function AIFunctions(tools: seq<UnifiedTool>): (fs: seq<AIFunction>)
    ensures |fs| == |tools|
    ensures forall i :: 0 <= i < |tools| ==> fs[i] == tools[i].ToAIFunction()
  {
    if tools == [] then [] else [tools[0].ToAIFunction()] + AIFunctions(tools[1..])
  }

  /**
   * Whether reflection lists the method for
   * `GetMethods(BindingFlags.Public | BindingFlags.Instance)` and it carries a
   * `[Description]` attribute.
   */
  predicate IsDescribedMethod(m: MethodInfo)
    ensures !m.isPublic ==> !IsDescribedMethod(m)
    ensures m.isStatic ==> !IsDescribedMethod(m)
    ensures m.description.None? ==> !IsDescribedMethod(m)
    ensures m.isPublic && !m.isStatic && m.description.Some? ==> IsDescribedMethod(m)
  {
    m.isPublic && !m.isStatic && m.description.Some?
  }

  /** The methods that become tools, in reflection order. */
  function DescribedMethods(methods: seq<MethodInfo>): (described: seq<MethodInfo>)
    ensures |described| <= |methods|
    ensures forall k :: 0 <= k < |described| ==> IsDescribedMethod(described[k])
  {
    if methods == [] then []
    else (if IsDescribedMethod(methods[0]) then [methods[0]] else []) + DescribedMethods(methods[1..])
  }

  /** The history both chat paths send: one user message holding the prompt. */
  function UserHistory(prompt: string): (h: seq<ChatMessage>)
    ensures |h| == 1 && h[0].role == User && h[0].text == prompt
  {
    [ChatMessage(User, prompt)]
  }

  /** The chunks a streamed reply yields for its updates: the non-empty texts, in order. */
  function NonEmptyTexts(updates: seq<ChatResponseUpdate>): (chunks: seq<string>)
    ensures |chunks| <= |updates|
    ensures forall k :: 0 <= k < |chunks| ==> exists i :: 0 <= i < |updates| && updates[i].text == Some(chunks[k])
  {
    if updates == [] then []
    else
      var last := updates[|updates| - 1];
      NonEmptyTexts(updates[..|updates| - 1])
        + (if last.text.Some? && last.text.value != "" then [last.text.value] else [])
  }

  /**
   * The full name of the type `List<ChatMessage>`, which is what its
   * `ToString()` gives: `List<T>` does not override `Object.ToString`.
   */
  const ChatMessageListTypeName: string := "System.Collections.Generic.List`1[Microsoft.Extensions.AI.ChatMessage]"

  /** `messages.ToString()` for a `List<ChatMessage>`. */
  function MessagesToString(messages: seq<ChatMessage>): (s: string)
    ensures s == ChatMessageListTypeName
  {
    ChatMessageListTypeName
  }

  /** The text of a reply's final message, or "" when the reply has no message. */
  function FinalText(response: ChatResponse): (text: string)
    ensures response.messages != [] ==> text == response.messages[|response.messages| - 1].text
    ensures response.messages == [] ==> text == ""
  {
    if response.messages == [] then "" else response.messages[|response.messages| - 1].text
  }

  /** All the text of a streamed reply, a null text counted as empty. */
  function AllText(updates: seq<ChatResponseUpdate>): string
  {
    if updates == [] then ""
    else AllText(updates[..|updates| - 1]) + OrEmpty(updates[|updates| - 1].text)
  }

  /** The chunks joined together. */
  function Concat(chunks: seq<string>): string
  {
    if chunks == [] then "" else Concat(chunks[..|chunks| - 1]) + chunks[|chunks| - 1]
  }

  /** No two entries are the same wrapper object. */
  ghost predicate Distinct(tools: seq<UnifiedTool>) {
    forall i, j :: 0 <= i < j < |tools| ==> tools[i] != tools[j]
  }

  /** `added` holds one MCP wrapper per entry of `client`'s listing, in listing order, bound to `client`. */
  ghost predicate WrapsMcpListing(added: seq<UnifiedTool>, client: McpClient) {
    && |added| == |client.listing|
    && forall i :: 0 <= i < |added| ==>
         added[i].Mcp? && added[i].mcp.mcpTool == client.listing[i] && added[i].mcp.mcpClient == client
  }

  /**
   * `added` holds one in-process wrapper per method of `methods`, in order, bound
   * to `instance`, with the function `create` builds for that method.
   */
  ghost predicate WrapsMethods(added: seq<UnifiedTool>, instance: object, methods: seq<MethodInfo>,
                               create: (object, MethodInfo) -> AIFunction) {
    && |added| == |methods|
    && forall i :: 0 <= i < |added| ==>
         && added[i].InProcess?
         && added[i].inProcess.instance == instance
         && added[i].inProcess.methodInfo == methods[i]
         && added[i].inProcess.aiFunction == create(instance, methods[i])
  }

  class UnifiedToolManager {
    var tools: seq<UnifiedTool>
    const chatClient: ChatClient

    /** Every entry was added as a new wrapper, so no object occurs twice. */
    ghost predicate Valid()
      reads this
    {
      Distinct(tools)
    }

    constructor (chatClient: ChatClient)
      ensures Valid() && tools == [] && this.chatClient == chatClient
    {
      this.chatClient := chatClient;
      tools := [];
    }

    /** Appends one new wrapper per tool the session lists, in listing order. */
    method RegisterMcpToolsAsync(mcpClient: McpClient)
      requires Valid()
      modifies this
      ensures Valid()
      ensures |tools| == |old(tools)| + |mcpClient.listing|
      ensures tools[..|old(tools)|] == old(tools)
      ensures WrapsMcpListing(tools[|old(tools)|..], mcpClient)
      ensures forall i :: |old(tools)| <= i < |tools| ==> tools[i].Mcp? && fresh(tools[i].mcp)
    {
      var mcpTools := mcpClient.listing;
      ghost var n := |tools|;
      for i := 0 to |mcpTools|
        invariant |tools| == n + i
        invariant tools[..n] == old(tools)
        invariant Distinct(tools)
        invariant forall k :: n <= k < |tools| ==>
          && tools[k].Mcp? && fresh(tools[k].mcp)
          && tools[k].mcp.mcpTool == mcpTools[k - n] && tools[k].mcp.mcpClient == mcpClient
      {
        var wrapper := new McpToolWrapper(mcpTools[i], mcpClient);
        tools := tools + [Mcp(wrapper)];
      }
    }

    /**
     * Appends one new wrapper per public instance method of `instance`'s type
     * that carries a `[Description]` attribute, in reflection order. `methods` is
     * the type's method table as reflection reports it; `create` is
     * `AIFunctionFactory.Create(method, instance)`.
     */
    method RegisterInProcessTool(instance: object, methods: seq<MethodInfo>,
                                 create: (object, MethodInfo) -> AIFunction)
      requires Valid()
      modifies this
      ensures Valid()
      ensures |tools| == |old(tools)| + |DescribedMethods(methods)|
      ensures tools[..|old(tools)|] == old(tools)
      ensures WrapsMethods(tools[|old(tools)|..], instance, DescribedMethods(methods), create)
      ensures forall i :: |old(tools)| <= i < |tools| ==> tools[i].InProcess? && fresh(tools[i].inProcess)
    {
      var described := DescribedMethods(methods);
      ghost var n := |tools|;
      for i := 0 to |described|
        invariant |tools| == n + i
        invariant tools[..n] == old(tools)
        invariant Distinct(tools)
        invariant forall k :: n <= k < |tools| ==>
          && tools[k].InProcess? && fresh(tools[k].inProcess)
          && tools[k].inProcess.instance == instance
          && tools[k].inProcess.methodInfo == described[k - n]
          && tools[k].inProcess.aiFunction == create(instance, described[k - n])
      {
        var wrapper := new InProcessToolWrapper(instance, described[i], create);
        tools := tools + [InProcess(wrapper)];
      }
    }

    /** One function per registered tool, in registration order, named and described as the tool. */
    function GetAllAIFunctions(): (fs: seq<AIFunction>)
      reads this
      ensures |fs| == |tools|
      ensures forall i :: 0 <= i < |tools| ==>
        fs[i].name == tools[i].Name() && OrEmpty(fs[i].description) == tools[i].Description()
      ensures forall i :: 0 <= i < |tools| && tools[i].InProcess? ==> fs[i] == tools[i].inProcess.aiFunction
    {
      AIFunctions(tools)
    }

    /**
     * The earliest registered tool whose name equals `name` ignoring case, or
     * None when no tool's name does.
     */
    function GetTool(name: string): (r: Option<UnifiedTool>)
      reads this
      ensures r.None? <==> forall i :: 0 <= i < |tools| ==> !NameMatches(tools[i], name)
      ensures r.Some? ==> exists i :: 0 <= i < |tools| && tools[i] == r.value && NameMatches(tools[i], name)
                                      && forall j :: 0 <= j < i ==> !NameMatches(tools[j], name)
    {
      match FirstMatch(tools, name)
      case None => None
      case Some(i) => Some(tools[i])
    }

    /** The options both chat paths send: every registered tool's function. */
    function ToolOptions(): (options: ChatOptions)
      reads this
      ensures options.tools == AIFunctions(tools)
      ensures |options.tools| == |tools|
    {
      ChatOptions(GetAllAIFunctions())
    }

    /**
     * Sends the one-message history and every tool, and returns
     * `response.Messages.ToString()`: the type name of the message list, as the
     * code is written.
     */
    method ChatAsync(prompt: string) returns (answer: string)
      modifies chatClient
      ensures chatClient.requests == old(chatClient.requests) + [([ChatMessage(User, prompt)], ChatOptions(AIFunctions(tools)))]
      ensures answer == MessagesToString(
                chatClient.getResponse([ChatMessage(User, prompt)], ChatOptions(AIFunctions(tools))).messages)
    {
      var messages := UserHistory(prompt);
      var chatOptions := ToolOptions();
      var response := chatClient.GetResponseAsync(messages, chatOptions);
      answer := MessagesToString(response.messages);
    }

    /**
     * The same request as ChatAsync, returning the reply's final text, as the
     * commented-out line beside the return evidently intends.
     */
    method ChatAnswerAsync(prompt: string) returns (answer: string)
      modifies chatClient
      ensures chatClient.requests == old(chatClient.requests) + [([ChatMessage(User, prompt)], ChatOptions(AIFunctions(tools)))]
      ensures answer == FinalText(chatClient.getResponse([ChatMessage(User, prompt)], ChatOptions(AIFunctions(tools))))
    {
      var messages := UserHistory(prompt);
      var chatOptions := ToolOptions();
      var response := chatClient.GetResponseAsync(messages, chatOptions);
      answer := FinalText(response);
    }

    /**
     * Sends the one-message history and every tool, and yields the text of each
     * update whose text is neither null nor empty, in arrival order.
     */
    method ChatStreamAsync(prompt: string) returns (chunks: seq<string>)
      ensures chunks == NonEmptyTexts(chatClient.getStreamingResponse(
                          [ChatMessage(User, prompt)], ChatOptions(AIFunctions(tools))))
    {
      var messages := UserHistory(prompt);
      var chatOptions := ToolOptions();
      var updates := chatClient.getStreamingResponse(messages, chatOptions);
      chunks := [];
      for i := 0 to |updates|
        invariant chunks == NonEmptyTexts(updates[..i])
      {
        assert updates[..i + 1][..i] == updates[..i];
        var text := updates[i].text;
        if text.Some? && text.value != "" {
          chunks := chunks + [text.value];
        }
      }
      assert updates[..|updates|] == updates;
    }
  }
}
