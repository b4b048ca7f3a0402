/**
 * The boundary of the two SDKs the tool system builds on (Microsoft.Extensions.AI
 * and ModelContextProtocol), reduced to the values that cross it. What happens
 * behind the boundary (the MCP transport, the language model, the reflection done
 * by AIFunctionFactory) is not modelled: an MCP session and a chat client are
 * objects whose answers are fixed functions of the request.
 */
module Sdk {
  import opened Wrappers

  /** A C# `object?` crossing the tool boundary: an argument value or a tool result. */
  datatype Value = Null | Text(text: string) | Other(id: nat)

  /**
   * `AIFunctionArguments` as its enumerator yields it: key/value pairs in
   * enumeration order.
   */
  type Arguments = seq<(string, Value)>

  /**
   * Reflection metadata of one method of an in-process tool type: its name,
   * whether it is public and whether it is static, and the text of its
   * `[Description]` attribute (None when the method carries no such attribute).
   */
  datatype MethodInfo = MethodInfo(name: string, isPublic: bool, isStatic: bool, description: Option<string>)

  /** One entry of an MCP server's tool listing. The description may be absent. */
  datatype McpClientTool = McpClientTool(name: string, description: Option<string>)

  /** What an `AIFunction` runs when the chat client calls it. */
  datatype Callee =
    | McpCall(tool: McpClientTool, client: McpClient)  // an McpToolWrapper's InvokeAsync
    | BoundMethod(instance: object, methodInfo: MethodInfo)  // a reflected method on an instance

  /** A callable the chat client can offer to the model: a name, an optional description, a target. */
  datatype AIFunction = AIFunction(name: string, description: Option<string>, callee: Callee)

  /** The reply to an MCP `tools/call` request. */
  datatype CallToolResponse = CallToolResponse(content: Value, isError: bool)

  /**
   * A connected MCP session (`IMcpClient`): `listing` is what `ListToolsAsync`
   * answers and `callTool` what `CallToolAsync` answers for a tool name and an
   * argument dictionary.
   */
  class McpClient {
    const listing: seq<McpClientTool>
    const callTool: (string, map<string, Value>) -> CallToolResponse

    constructor (listing: seq<McpClientTool>, callTool: (string, map<string, Value>) -> CallToolResponse)
      ensures this.listing == listing && this.callTool == callTool
    {
      this.listing := listing;
      this.callTool := callTool;
    }
  }

  datatype ChatRole = System | User | Assistant | Tool

  datatype ChatMessage = ChatMessage(role: ChatRole, text: string)

  /** The options sent with a chat request; only the tool list is set by this system. */
  datatype ChatOptions = ChatOptions(tools: seq<AIFunction>)

  datatype ChatResponse = ChatResponse(messages: seq<ChatMessage>)

  /** One increment of a streamed chat response; its text may be null. */
  datatype ChatResponseUpdate = ChatResponseUpdate(text: Option<string>)

  /**
   * An `IChatClient` (with its function-invocation pipeline): `getResponse` is
   * what `GetResponseAsync` answers and `getStreamingResponse` the sequence of
   * updates `GetStreamingResponseAsync` produces, for a history and options.
   * `requests` records, in order, every request sent through `GetResponseAsync`.
   */
  class ChatClient {
    const getResponse: (seq<ChatMessage>, ChatOptions) -> ChatResponse
    const getStreamingResponse: (seq<ChatMessage>, ChatOptions) -> seq<ChatResponseUpdate>
    ghost var requests: seq<(seq<ChatMessage>, ChatOptions)>

    constructor (getResponse: (seq<ChatMessage>, ChatOptions) -> ChatResponse,
                 getStreamingResponse: (seq<ChatMessage>, ChatOptions) -> seq<ChatResponseUpdate>)
      ensures this.getResponse == getResponse && this.getStreamingResponse == getStreamingResponse
      ensures requests == []
    {
      this.getResponse := getResponse;
      this.getStreamingResponse := getStreamingResponse;
      requests := [];
    }

    /** Sends one request: it is recorded, and the reply is the client's answer to it. */
    method GetResponseAsync(messages: seq<ChatMessage>, options: ChatOptions) returns (response: ChatResponse)
      modifies this
      ensures requests == old(requests) + [(messages, options)]
      ensures response == getResponse(messages, options)
    {
      requests := requests + [(messages, options)];
      response := getResponse(messages, options);
    }
  }
}
