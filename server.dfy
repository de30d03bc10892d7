/**
 * Request dispatch of the MCP server (server/server.go). `Respond` is the
 * specification: the response to one request and the `initialized` flag
 * after it. The class `Server` holds the flag and the tool registry and
 * handles requests the way the code does, step by step.
 *
 * `parseParams` turns a request's `Params` into a typed struct by encoding
 * it as JSON and decoding the bytes; the encoder and the three decoders are
 * the fields of `Parsers`. A tool handler is a function of its arguments.
 */
module Server {
  import opened Base
  import opened Protocol

  type Handler = map<string, Any> -> Result<CallToolResult>

  datatype Parsers = Parsers(
    marshal: Any -> Result<Bytes>,
    initialize: Bytes -> Result<InitializeParams>,
    listTools: Bytes -> Result<ListToolsParams>,
    callTool: Bytes -> Result<CallToolParams>)

  /** `parseParams`: encode, then decode into the requested type. */
  function ParseParams<T>(marshal: Any -> Result<Bytes>, unmarshal: Bytes -> Result<T>, params: Any): (r: Result<T>)
    ensures r.Ok? <==> marshal(params).Ok? && unmarshal(marshal(params).value).Ok?
    ensures r.Ok? ==> r.value == unmarshal(marshal(params).value).value
    ensures marshal(params).Err? ==> r == Err("failed to marshal params: " + marshal(params).error)
    ensures marshal(params).Ok? && r.Err? ==>
              r == Err("failed to unmarshal params: " + unmarshal(marshal(params).value).error)
  {
    match marshal(params)
    case Err(e) => Err("failed to marshal params: " + e)
    case Ok(data) =>
      match unmarshal(data)
      case Err(e) => Err("failed to unmarshal params: " + e)
      case Ok(v) => Ok(v)
  }

  /** What a successful initialize answers. */
  const ServerInitializeResult := InitializeResult(
    LatestProtocolVersion,
    ServerInfo("GitHub MCP Server", "1.0.0", "https://github.com/your-username/github-mcp-server-go"),
    ServerCapabilities(false, true, false))

  /** `getToolDefinition`: a placeholder that knows no tool. */
  function ToolDefinition(name: string): (t: Option<Tool>)
    ensures t.None?
  {
    None
  }

  /** The definitions of `names`, in their order, skipping names without one. */
  function Definitions(names: seq<string>): seq<Tool>
    decreases |names|
  {
    if names == [] then []
    else
      Definitions(names[..|names| - 1])
      + match ToolDefinition(names[|names| - 1]) { case Some(t) => [t] case None => [] }
  }

  /** No name has a definition, so listing any names lists nothing. */
  lemma {:induction false} NoDefinitions(names: seq<string>)
    ensures Definitions(names) == []
    decreases |names|
  {
    if names != [] {
      NoDefinitions(names[..|names| - 1]);
    }
  }

  /** `handleInitialize` on a flag: the response and the flag after it. */
  function InitializeResponse(initialized: bool, parsers: Parsers, request: Message): (out: (Message, bool))
    ensures out.0.id == request.id && OneKind(out.0) && !IsRequest(out.0)
    ensures initialized ==> out.1 && Code(out.0) == Some(AlreadyInitialized)
    ensures !initialized ==> (out.1 <==> ParseParams(parsers.marshal, parsers.initialize, request.params).Ok?)
    ensures out.1 && !initialized ==> out.0.result == Some(Initialized(ServerInitializeResult))
    ensures !out.1 ==> Code(out.0) == Some(InvalidParams)
  {
    if initialized then
      (NewErrorResponse(request.id, AlreadyInitialized, "Server already initialized", Null), true)
    else
      match ParseParams(parsers.marshal, parsers.initialize, request.params)
      case Err(e) => (NewErrorResponse(request.id, InvalidParams, e, Null), false)
      case Ok(_) => (NewResponse(request.id, Initialized(ServerInitializeResult)), true)
  }

  /** `handleListTools`: the definitions of the registered tools, of which there are none. */
  function ListToolsResponse(parsers: Parsers, request: Message): (response: Message)
    ensures response.id == request.id && OneKind(response) && !IsRequest(response)
    ensures ParseParams(parsers.marshal, parsers.listTools, request.params).Ok? <==> IsSuccess(response)
    ensures IsSuccess(response) ==> response.result == Some(ToolList(ListToolsResult([], None)))
    ensures !IsSuccess(response) ==> Code(response) == Some(InvalidParams)
  {
    match ParseParams(parsers.marshal, parsers.listTools, request.params)
    case Err(e) => NewErrorResponse(request.id, InvalidParams, e, Null)
    case Ok(_) => NewResponse(request.id, ToolList(ListToolsResult([], None)))
  }

  /** `handleCallTool`: find the named handler and run it on the arguments. */
  function CallToolResponse(tools: map<string, Handler>, parsers: Parsers, request: Message): (response: Message)
    ensures response.id == request.id && OneKind(response) && !IsRequest(response)
    ensures IsSuccess(response) <==>
              var parsed := ParseParams(parsers.marshal, parsers.callTool, request.params);
              parsed.Ok? && parsed.value.name in tools && tools[parsed.value.name](parsed.value.arguments).Ok?
  {
    match ParseParams(parsers.marshal, parsers.callTool, request.params)
    case Err(e) => NewErrorResponse(request.id, InvalidParams, e, Null)
    case Ok(p) =>
      if p.name !in tools then NewErrorResponse(request.id, ToolNotFound, "Tool not found", Null)
      else
        match tools[p.name](p.arguments)
        case Err(e) => NewErrorResponse(request.id, InternalError, e, Null)
        case Ok(result) => NewResponse(request.id, ToolCalled(result))
  }

  /**
   * `handleRequest` on a flag: the response to `request` and whether the
   * server is initialized afterwards. Every response answers the request's
   * id, is a well-formed JSON-RPC 2.0 response, and the flag is only ever
   * raised, by an initialize whose parameters parse.
   */
  function Respond(initialized: bool, tools: map<string, Handler>, parsers: Parsers, request: Message): (out: (Message, bool))
    ensures out.0.id == request.id && out.0.jsonrpc == JSONRPCVersion
    ensures OneKind(out.0) && !IsRequest(out.0)
    ensures out.1 <==> initialized || (request.methodName == "initialize"
                                      && ParseParams(parsers.marshal, parsers.initialize, request.params).Ok?)
  {
    if request.methodName == "" then
      (NewErrorResponse(request.id, InvalidRequest, "Missing method", Null), initialized)
    else if request.methodName == "initialize" then
      InitializeResponse(initialized, parsers, request)
    else if !initialized then
      (NewErrorResponse(request.id, NotInitialized, "Server not initialized", Null), initialized)
    else if request.methodName == "tools/list" then
      (ListToolsResponse(parsers, request), initialized)
    else if request.methodName == "tools/call" then
      (CallToolResponse(tools, parsers, request), initialized)
    else
      (NewErrorResponse(request.id, MethodNotFound, "Method not found", Null), initialized)
  }

  /** The error code of a response, if it is an error. */
  function Code(m: Message): Option<int>
  {
    if m.error.Some? then Some(m.error.value.code) else None
  }

  /** An empty method is an invalid request, in any state, and changes no state. */
  lemma EmptyMethodInvalid(initialized: bool, tools: map<string, Handler>, parsers: Parsers, request: Message)
    requires request.methodName == ""
    ensures Respond(initialized, tools, parsers, request).0.error == Some(RpcError(InvalidRequest, "Missing method", Null))
    ensures Respond(initialized, tools, parsers, request).1 == initialized
  {
  }

  /** Before initialization every other method is refused, and the server stays uninitialized. */
  lemma NotInitializedRefuses(tools: map<string, Handler>, parsers: Parsers, request: Message)
    requires request.methodName != "" && request.methodName != "initialize"
    ensures Respond(false, tools, parsers, request).0.error == Some(RpcError(NotInitialized, "Server not initialized", Null))
    ensures !Respond(false, tools, parsers, request).1
  {
  }

  /**
   * The first initialize whose parameters parse raises the flag and reports
   * protocol version 1.0 and the tools capability; one whose parameters do
   * not parse is an invalid-params error and leaves the server uninitialized.
   */
  lemma FirstInitialize(tools: map<string, Handler>, parsers: Parsers, request: Message)
    requires request.methodName == "initialize"
    ensures var parsed := ParseParams(parsers.marshal, parsers.initialize, request.params);
      && (parsed.Ok? ==> Respond(false, tools, parsers, request) == (NewResponse(request.id, Initialized(ServerInitializeResult)), true))
      && (parsed.Err? ==> Respond(false, tools, parsers, request) == (NewErrorResponse(request.id, InvalidParams, parsed.error, Null), false))
    ensures ServerInitializeResult.protocolVersion == "1.0" && ServerInitializeResult.capabilities.tools
  {
  }

  /** Every initialize after the first is refused, whatever its parameters. */
  lemma LaterInitializeRefused(tools: map<string, Handler>, parsers: Parsers, request: Message)
    requires request.methodName == "initialize"
    ensures Respond(true, tools, parsers, request) ==
              (NewErrorResponse(request.id, AlreadyInitialized, "Server already initialized", Null), true)
  {
  }

  /** Once initialized, only tools/list and tools/call are known methods. */
  lemma UnknownMethod(tools: map<string, Handler>, parsers: Parsers, request: Message)
    requires request.methodName !in {"", "initialize", "tools/list", "tools/call"}
    ensures Respond(true, tools, parsers, request) == (NewErrorResponse(request.id, MethodNotFound, "Method not found", Null), true)
  {
  }

  /**
   * tools/call: parameters that do not parse are invalid params; an
   * unregistered name is tool-not-found; a handler error becomes an internal
   * error carrying its text; otherwise the response carries the handler's result.
   */
  lemma CallTool(tools: map<string, Handler>, parsers: Parsers, request: Message)
    requires request.methodName == "tools/call"
    ensures var parsed := ParseParams(parsers.marshal, parsers.callTool, request.params);
      var response := Respond(true, tools, parsers, request).0;
      && (parsed.Err? ==> Code(response) == Some(InvalidParams) && response.error.value.message == parsed.error)
      && (parsed.Ok? && parsed.value.name !in tools ==>
            response.error == Some(RpcError(ToolNotFound, "Tool not found", Null)))
      && (parsed.Ok? && parsed.value.name in tools && tools[parsed.value.name](parsed.value.arguments).Err? ==>
            response.error == Some(RpcError(InternalError, tools[parsed.value.name](parsed.value.arguments).error, Null)))
      && (parsed.Ok? && parsed.value.name in tools && tools[parsed.value.name](parsed.value.arguments).Ok? ==>
            response.result == Some(ToolCalled(tools[parsed.value.name](parsed.value.arguments).value)))
  {
  }

  /** tools/list answers an empty list when its parameters parse. */
  lemma ListToolsEmpty(tools: map<string, Handler>, parsers: Parsers, request: Message)
    requires request.methodName == "tools/list"
    requires ParseParams(parsers.marshal, parsers.listTools, request.params).Ok?
    ensures Respond(true, tools, parsers, request).0.result == Some(ToolList(ListToolsResult([], None)))
  {
  }

  /** The responses to a sequence of requests, one after the other, and the final flag. */
  function Session(initialized: bool, tools: map<string, Handler>, parsers: Parsers, requests: seq<Message>): (out: (seq<Message>, bool))
    ensures |out.0| == |requests|
    ensures initialized ==> out.1
    decreases |requests|
  {
    if requests == [] then ([], initialized)
    else
      var (response, next) := Respond(initialized, tools, parsers, requests[0]);
      var (rest, final) := Session(next, tools, parsers, requests[1..]);
      ([response] + rest, final)
  }

  /** `m` is an initialize that succeeded. */
  predicate Accepted(m: Message)
  {
    m.result.Some? && m.result.value.Initialized?
  }

  /** Every response of a session answers its request's id. */
  lemma {:induction false} SessionAnswersIds(initialized: bool, tools: map<string, Handler>, parsers: Parsers,
                                             requests: seq<Message>, i: nat)
    requires i < |requests|
    ensures Session(initialized, tools, parsers, requests).0[i].id == requests[i].id
    decreases |requests|
  {
    if i > 0 {
      var next := Respond(initialized, tools, parsers, requests[0]).1;
      SessionAnswersIds(next, tools, parsers, requests[1..], i - 1);
    }
  }

  /** Once initialized, no later initialize is accepted. */
  lemma {:induction false} NoneAcceptedAfter(tools: map<string, Handler>, parsers: Parsers, requests: seq<Message>, i: nat)
    requires i < |requests|
    ensures !Accepted(Session(true, tools, parsers, requests).0[i])
    decreases |requests|
  {
    if i > 0 {
      NoneAcceptedAfter(tools, parsers, requests[1..], i - 1);
    }
  }

  /** In any session at most one initialize is accepted, and none if it starts initialized. */
  lemma {:induction false} AtMostOneInitialize(initialized: bool, tools: map<string, Handler>, parsers: Parsers,
                                               requests: seq<Message>, i: nat, j: nat)
    requires i < j < |requests|
    ensures var responses := Session(initialized, tools, parsers, requests).0;
      !(Accepted(responses[i]) && Accepted(responses[j]))
    ensures initialized ==> !Accepted(Session(initialized, tools, parsers, requests).0[i])
    decreases |requests|
  {
    var next := Respond(initialized, tools, parsers, requests[0]).1;
    if initialized {
      NoneAcceptedAfter(tools, parsers, requests, i);
      NoneAcceptedAfter(tools, parsers, requests, j);
    } else if i == 0 {
      var first := Respond(false, tools, parsers, requests[0]).0;
      if Accepted(first) {
        assert next;
        NoneAcceptedAfter(tools, parsers, requests[1..], j - 1);
      }
    } else {
      AtMostOneInitialize(next, tools, parsers, requests[1..], i - 1, j - 1);
    }
  }

  class Server {
    var initialized: bool
    var tools: map<string, Handler>
    const parsers: Parsers

    /** `New`: uninitialized, with no tools registered. */
    constructor (parsers: Parsers)
      ensures !initialized && tools == map[] && this.parsers == parsers
    {
      initialized := false;
      tools := map[];
      this.parsers := parsers;
    }

    /** `handleRequest`. */
    method HandleRequest(request: Message) returns (response: Message)
      modifies this
      ensures (response, initialized) == Respond(old(initialized), tools, parsers, request)
      ensures tools == old(tools)
    {
      if request.methodName == "" {
        return NewErrorResponse(request.id, InvalidRequest, "Missing method", Null);
      }
      if request.methodName == "initialize" {
        response := HandleInitialize(request);
        return;
      }
      if !initialized {
        return NewErrorResponse(request.id, NotInitialized, "Server not initialized", Null);
      }
      if request.methodName == "tools/list" {
        ghost var order;
        response, order := HandleListTools(request);
      } else if request.methodName == "tools/call" {
        response := HandleCallTool(request);
      } else {
        response := NewErrorResponse(request.id, MethodNotFound, "Method not found", Null);
      }
    }

    /** `handleInitialize`: the only change of state a request can make. */
    method HandleInitialize(request: Message) returns (response: Message)
      modifies this
      ensures (response, initialized) == InitializeResponse(old(initialized), parsers, request)
      ensures tools == old(tools)
    {
      if initialized {
        return NewErrorResponse(request.id, AlreadyInitialized, "Server already initialized", Null);
      }
      var params := ParseParams(parsers.marshal, parsers.initialize, request.params);
      if params.Err? {
        return NewErrorResponse(request.id, InvalidParams, params.error, Null);
      }
      initialized := true;
      response := NewResponse(request.id, Initialized(ServerInitializeResult));
    }

    /**
     * `handleListTools`: walks the registry in some order (`order`, every
     * registered name once) and lists the definition of each name that has
     * one, which is none of them.
     */
    method HandleListTools(request: Message) returns (response: Message, ghost order: seq<string>)
      ensures ParseParams(parsers.marshal, parsers.listTools, request.params).Ok? ==> Enumerates(order, tools.Keys)
      ensures ParseParams(parsers.marshal, parsers.listTools, request.params).Ok? ==>
                response == NewResponse(request.id, ToolList(ListToolsResult(Definitions(order), None)))
      ensures response == ListToolsResponse(parsers, request)
    {
      var params := ParseParams(parsers.marshal, parsers.listTools, request.params);
      if params.Err? {
        return NewErrorResponse(request.id, InvalidParams, params.error, Null), [];
      }
      var names: seq<string> := [];
      var listed: seq<Tool> := [];
      var rest := tools.Keys;
      while rest != {}
        invariant rest <= tools.Keys
        invariant forall i | 0 <= i < |names| :: names[i] in tools && names[i] !in rest
        invariant forall k | k in tools :: k in rest || k in names
        invariant forall i, j | 0 <= i < j < |names| :: names[i] != names[j]
        invariant listed == Definitions(names)
        decreases rest
      {
        var name :| name in rest;
        assert (names + [name])[..|names|] == names;
        match ToolDefinition(name) {
          case Some(tool) => listed := listed + [tool];
          case None =>
        }
        names := names + [name];
        rest := rest - {name};
      }
      order := names;
      NoDefinitions(names);
      response := NewResponse(request.id, ToolList(ListToolsResult(listed, None)));
    }

    /** `handleCallTool`. */
    method HandleCallTool(request: Message) returns (response: Message)
      ensures response == CallToolResponse(tools, parsers, request)
    {
      var params := ParseParams(parsers.marshal, parsers.callTool, request.params);
      if params.Err? {
        return NewErrorResponse(request.id, InvalidParams, params.error, Null);
      }
      if params.value.name !in tools {
        return NewErrorResponse(request.id, ToolNotFound, "Tool not found", Null);
      }
      var handler := tools[params.value.name];
      var result := handler(params.value.arguments);
      if result.Err? {
        return NewErrorResponse(request.id, InternalError, result.error, Null);
      }
      response := NewResponse(request.id, ToolCalled(result.value));
    }
  }
}
