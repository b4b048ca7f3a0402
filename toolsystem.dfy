/**
 * The unified tool interface and its two adapters: an MCP tool proxied over a
 * session, and an in-process method wrapped as an `AIFunction`
 * (UnifiedToolSystem.cs).
 */
module ToolSystem {
  import opened Wrappers
  import opened Sdk

  /** A possibly-null description, with null read as the empty string. */
  function OrEmpty(description: Option<string>): (s: string)
    ensures description.Some? ==> s == description.value
    ensures description.None? ==> s == ""
  {
    description.GetOr("")
  }

  /** A possibly-null result, with null replaced by the empty string. */
  function NullToEmpty(v: Value): (r: Value)
    ensures r != Null
    ensures v != Null ==> r == v
    ensures v == Null ==> r == Text("")
  {
    if v == Null then Text("") else v
  }

  /**
   * The dictionary that results from storing the pairs of `parameters` one by one,
   * `dict[key] = value`, starting from an empty dictionary.
   */
  function ToDictionary(parameters: Arguments): (dict: map<string, Value>)
    ensures forall i :: 0 <= i < |parameters| ==> parameters[i].0 in dict
    ensures forall k :: k in dict ==> exists i :: 0 <= i < |parameters| && parameters[i] == (k, dict[k])
  {
    if parameters == [] then map[]
    else
      var last := parameters[|parameters| - 1];
      ToDictionary(parameters[..|parameters| - 1])[last.0 := last.1]
  }

  /** The keys of the dictionary are exactly the keys that occur in the arguments. */
  lemma ToDictionaryKeys(parameters: Arguments)
    ensures ToDictionary(parameters).Keys == set i | 0 <= i < |parameters| :: parameters[i].0
  {
    var dict := ToDictionary(parameters);
    forall k | k in dict ensures k in set i | 0 <= i < |parameters| :: parameters[i].0 {
      var i :| 0 <= i < |parameters| && parameters[i] == (k, dict[k]);
    }
  }

  /** Each key is mapped to the value of its last occurrence: a repeated key's later value wins. */
  lemma {:induction false} ToDictionaryLastWins(parameters: Arguments, i: nat)
    requires i < |parameters|
    requires forall j :: i < j < |parameters| ==> parameters[j].0 != parameters[i].0
    ensures parameters[i].0 in ToDictionary(parameters)
    ensures ToDictionary(parameters)[parameters[i].0] == parameters[i].1
  {
    var init := parameters[..|parameters| - 1];
    if i < |parameters| - 1 {
      forall j | i < j < |init| ensures init[j].0 != init[i].0 {
        assert init[j] == parameters[j];
      }
      ToDictionaryLastWins(init, i);
      assert init[i] == parameters[i];
    }
  }

  /** Wraps one tool of an MCP server listing, with the session that serves it. */
  class McpToolWrapper {
    const mcpTool: McpClientTool
    const mcpClient: McpClient

    constructor (mcpTool: McpClientTool, mcpClient: McpClient)
      ensures this.mcpTool == mcpTool && this.mcpClient == mcpClient
    {
      this.mcpTool := mcpTool;
      this.mcpClient := mcpClient;
    }

    /** The listed tool's name. */
    function Name(): (n: string)
      ensures n == mcpTool.name
    {
      mcpTool.name
    }

    /** The listed tool's description, or "" when the listing gives none. */
    function Description(): (d: string)
      ensures mcpTool.description.Some? ==> d == mcpTool.description.value
      ensures mcpTool.description.None? ==> d == ""
    {
      OrEmpty(mcpTool.description)
    }

    /**
     * A new function that runs this wrapper's InvokeAsync, named and described as
     * the wrapper is (the description is never null).
     */
    function ToAIFunction(): (f: AIFunction)
      ensures f.name == mcpTool.name
      ensures f.description.Some? && f.description.value == Description()
      ensures f.callee == McpCall(mcpTool, mcpClient)
    {
      AIFunction(mcpTool.name, Some(OrEmpty(mcpTool.description)), McpCall(mcpTool, mcpClient))
    }

    /**
     * Copies the arguments into a dictionary, calls the tool of this wrapper's own
     * name on the session with it, and returns the response's content unchanged.
     */
    method InvokeAsync(parameters: Arguments) returns (result: Value)
      ensures result == mcpClient.callTool(mcpTool.name, ToDictionary(parameters)).content
    {
      var paramDict: map<string, Value> := map[];
      for i := 0 to |parameters|
        invariant paramDict == ToDictionary(parameters[..i])
      {
        assert parameters[..i + 1][..i] == parameters[..i];
        paramDict := paramDict[parameters[i].0 := parameters[i].1];
      }
      assert parameters[..|parameters|] == parameters;
      var response := mcpClient.callTool(mcpTool.name, paramDict);
      result := response.content;
    }
  }

  /**
   * Wraps one method of an in-process object. The `AIFunction` is built once, in
   * the constructor, by the SDK's factory (`create`), and is reused afterwards.
   */
  class InProcessToolWrapper {
    const instance: object
    const methodInfo: MethodInfo
    const aiFunction: AIFunction

    constructor (instance: object, methodInfo: MethodInfo, create: (object, MethodInfo) -> AIFunction)
      ensures this.instance == instance && this.methodInfo == methodInfo
      ensures aiFunction == create(instance, methodInfo)
    {
      this.instance := instance;
      this.methodInfo := methodInfo;
      aiFunction := create(instance, methodInfo);
    }

    /** The name of the function built at construction. */
    function Name(): (n: string)
      ensures n == aiFunction.name
    {
      aiFunction.name
    }

    /** The description of the function built at construction, or "" when it has none. */
    function Description(): (d: string)
      ensures aiFunction.description.Some? ==> d == aiFunction.description.value
      ensures aiFunction.description.None? ==> d == ""
    {
      OrEmpty(aiFunction.description)
    }

    /** The function built at construction, the same one on every call, named and described as the wrapper. */
    function ToAIFunction(): (f: AIFunction)
      ensures f == aiFunction
      ensures f.name == Name() && OrEmpty(f.description) == Description()
    {
      aiFunction
    }

    /**
     * Runs the wrapped function (`invoke` is the SDK's `AIFunction.InvokeAsync`)
     * and returns its result, with a null result replaced by the empty string.
     */
    method InvokeAsync(parameters: Arguments, invoke: (AIFunction, Arguments) -> Value) returns (result: Value)
      ensures result != Null
      ensures invoke(aiFunction, parameters) != Null ==> result == invoke(aiFunction, parameters)
      ensures invoke(aiFunction, parameters) == Null ==> result == Text("")
    {
      var returned := invoke(aiFunction, parameters);
      result := NullToEmpty(returned);
    }
  }

  /** `IUnifiedTool`: one interface over the two kinds of tool. */
  datatype UnifiedTool = Mcp(mcp: McpToolWrapper) | InProcess(inProcess: InProcessToolWrapper) {

    /** An MCP tool is named as listed; an in-process tool as its function. */
    function Name(): (n: string)
      ensures Mcp? ==> n == mcp.mcpTool.name
      ensures InProcess? ==> n == inProcess.aiFunction.name
    {
      match this
      case Mcp(w) => w.Name()
      case InProcess(w) => w.Name()
    }

    /** The adapter's description, with null read as "". */
    function Description(): (d: string)
      ensures Mcp? ==> d == OrEmpty(mcp.mcpTool.description)
      ensures InProcess? ==> d == OrEmpty(inProcess.aiFunction.description)
    {
      match this
      case Mcp(w) => w.Description()
      case InProcess(w) => w.Description()
    }

    /**
     * The function handed to the chat client carries the tool's name, and its
     * description read with null as empty is the tool's description.
     */
    function ToAIFunction(): (f: AIFunction)
      ensures f.name == Name()
      ensures OrEmpty(f.description) == Description()
      ensures InProcess? ==> f == inProcess.aiFunction
    {
      match this
      case Mcp(w) => w.ToAIFunction()
      case InProcess(w) => w.ToAIFunction()
    }

    /** Dispatches to the adapter's InvokeAsync. */
    method InvokeAsync(parameters: Arguments, invoke: (AIFunction, Arguments) -> Value) returns (result: Value)
      ensures Mcp? ==> result == mcp.mcpClient.callTool(mcp.Name(), ToDictionary(parameters)).content
      ensures InProcess? ==> result == NullToEmpty(invoke(inProcess.aiFunction, parameters))
    {
      match this
      case Mcp(w) =>
        result := w.InvokeAsync(parameters);
      case InProcess(w) =>
        result := w.InvokeAsync(parameters, invoke);
    }
  }
}
