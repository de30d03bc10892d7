/**
 * The MCP message types (protocol/protocol.go): JSON-RPC 2.0 messages, the
 * error codes, and the results of initialize, tools/list and tools/call.
 * A field the code types as `interface{}` holds a `Any`: the value JSON
 * decoding produces, or a `[]string` handed over by Go code.
 */
module Protocol {
  import opened Base

  const LatestProtocolVersion := "1.0"
  const JSONRPCVersion := "2.0"

  /** The error codes of section 5.1 of the JSON-RPC 2.0 Specification. */
  const ParseError := -32700
  const InvalidRequest := -32600
  const MethodNotFound := -32601
  const InvalidParams := -32602
  const InternalError := -32603

  /** The MCP error codes. */
  const NotInitialized := -32001
  const AlreadyInitialized := -32002
  const ResourceNotFound := -32003
  const InvalidResource := -32004
  const ToolNotFound := -32005
  const InvalidTool := -32006
  const PromptNotFound := -32007
  const InvalidPrompt := -32008
  const CapabilityNotSupported := -32009

  const JsonRpcCodes := [ParseError, InvalidRequest, MethodNotFound, InvalidParams, InternalError]
  const McpCodes := [NotInitialized, AlreadyInitialized, ResourceNotFound, InvalidResource, ToolNotFound,
                     InvalidTool, PromptNotFound, InvalidPrompt, CapabilityNotSupported]

  /** An `interface{}` value. */
  datatype Any =
    | Null
    | Bool(b: bool)
    | Num(n: int)
    | Str(s: string)
    | Strings(items: seq<string>)     // a Go `[]string`
    | Arr(elems: seq<Any>)            // a `[]interface{}`, as JSON decoding makes it
    | Obj(fields: map<string, Any>)

  /** An `Error`. */
  datatype RpcError = RpcError(code: int, message: string, data: Any)

  /** A `Content`; `kind` is its `Type`. */
  datatype Content = Content(kind: string, text: string, isError: bool)

  datatype CallToolResult = CallToolResult(content: seq<Content>)

  datatype Property = Property(kind: string, description: string, enum: seq<string>, pattern: string,
                               format: string, default: Any)
  datatype ToolSchema = ToolSchema(kind: string, properties: map<string, Property>, required: seq<string>)
  datatype Tool = Tool(name: string, description: string, schema: ToolSchema)
  datatype ListToolsResult = ListToolsResult(tools: seq<Tool>, nextCursor: Option<string>)

  datatype ServerInfo = ServerInfo(name: string, version: string, url: string)
  /** Which of the capability fields are non-nil. */
  datatype ServerCapabilities = ServerCapabilities(resources: bool, tools: bool, prompts: bool)
  datatype InitializeResult = InitializeResult(protocolVersion: string, serverInfo: ServerInfo,
                                               capabilities: ServerCapabilities)

  datatype InitializeParams = InitializeParams(protocolVersion: string)
  datatype ListToolsParams = ListToolsParams(cursor: string, limit: int)
  datatype CallToolParams = CallToolParams(name: string, arguments: map<string, Any>)

  /** What a response's `Result` holds. */
  datatype Payload =
    | Initialized(init: InitializeResult)
    | ToolList(list: ListToolsResult)
    | ToolCalled(call: CallToolResult)

  /** A `Message`; a nil `Result` or `Error` is `None`, a missing `ID` or `Params` is `Null`. */
  datatype Message = Message(jsonrpc: string, id: Any, methodName: string, params: Any,
                             result: Option<Payload>, error: Option<RpcError>)

  /** A request: a method and neither result nor error. */
  predicate IsRequest(m: Message)
  {
    m.methodName != "" && m.result.None? && m.error.None?
  }

  /** A successful response: a result and no error. */
  predicate IsSuccess(m: Message)
  {
    m.methodName == "" && m.result.Some? && m.error.None?
  }

  /** An error response: an error and no result. */
  predicate IsFailure(m: Message)
  {
    m.methodName == "" && m.result.None? && m.error.Some?
  }

  /** `m` is a well-formed JSON-RPC 2.0 message of exactly one kind. */
  predicate OneKind(m: Message)
  {
    m.jsonrpc == JSONRPCVersion
    && ((IsRequest(m) && !IsSuccess(m) && !IsFailure(m))
        || (!IsRequest(m) && IsSuccess(m) && !IsFailure(m))
        || (!IsRequest(m) && !IsSuccess(m) && IsFailure(m)))
  }

  /** `NewRequest`. */
  function NewRequest(id: Any, name: string, params: Any): (m: Message)
    ensures m.jsonrpc == JSONRPCVersion && m.id == id
    ensures name != "" ==> IsRequest(m) && OneKind(m)
    ensures m.methodName == name && m.params == params
  {
    Message(JSONRPCVersion, id, name, params, None, None)
  }

  /** `NewResponse`. */
  function NewResponse(id: Any, result: Payload): (m: Message)
    ensures m.jsonrpc == JSONRPCVersion && m.id == id
    ensures IsSuccess(m) && OneKind(m) && m.result == Some(result)
  {
    Message(JSONRPCVersion, id, "", Null, Some(result), None)
  }

  /** `NewErrorResponse`. */
  function NewErrorResponse(id: Any, code: int, message: string, data: Any): (m: Message)
    ensures m.jsonrpc == JSONRPCVersion && m.id == id
    ensures IsFailure(m) && OneKind(m)
    ensures m.error == Some(RpcError(code, message, data))
  {
    Message(JSONRPCVersion, id, "", Null, None, Some(RpcError(code, message, data)))
  }

  /** `TextContent`. */
  function TextContent(text: string): (c: Content)
    ensures c.kind == "text" && c.text == text && !c.isError
  {
    Content("text", text, false)
  }

  /** `ErrorContent`. */
  function ErrorContent(text: string): (c: Content)
    ensures c.kind == "text" && c.text == text && c.isError
  {
    Content("text", text, true)
  }

  /** Text and error content of the same text differ only in the error flag. */
  lemma ContentKindsDiffer(text: string)
    ensures TextContent(text) != ErrorContent(text)
    ensures TextContent(text).(isError := true) == ErrorContent(text)
  {
  }

  /**
   * The fourteen codes are pairwise distinct; the first five lie in the
   * range section 5.1 of the JSON-RPC 2.0 Specification reserves for
   * pre-defined errors (-32768 to -32000), the MCP ones in its
   * implementation-defined server-error range (-32099 to -32000).
   */
  lemma ErrorCodesDistinct()
    ensures forall i, j | 0 <= i < j < |JsonRpcCodes + McpCodes| :: (JsonRpcCodes + McpCodes)[i] != (JsonRpcCodes + McpCodes)[j]
    ensures forall i | 0 <= i < |JsonRpcCodes| :: -32768 <= JsonRpcCodes[i] <= -32000
    ensures forall i | 0 <= i < |McpCodes| :: -32099 <= McpCodes[i] <= -32000
  {
    var all := JsonRpcCodes + McpCodes;
    assert all == [-32700, -32600, -32601, -32602, -32603, -32001, -32002, -32003, -32004, -32005,
                   -32006, -32007, -32008, -32009];
    forall i, j | 0 <= i < j < |all|
      ensures all[i] != all[j]
    {
      if i < 5 && j >= 5 {
        assert all[i] <= -32600 && all[j] >= -32009;
      }
    }
  }
}
