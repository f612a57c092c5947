/**
 * The in-process tool-dispatch protocol: message envelopes, tool and resource
 * descriptors, the JSON-RPC error codes the servers use, and the client that
 * routes a request to a registered server by name.
 */
module Protocol {
  import opened Wrappers
  import opened Json

  datatype MessageType = Request | Response | Notification | Error

  /** An envelope; `result` is JSON null when the source leaves it unset. */
  datatype Message = Message(
    kind: MessageType,
    id: Option<string>,
    methodName: Option<string>,
    params: Option<map<string, Value>>,
    result: Value,
    error: Option<map<string, Value>>)

  datatype Resource = Resource(uri: string, name: string, description: Option<string>, mimeType: Option<string>)

  datatype Tool = Tool(name: string, description: string, inputSchema: Value)

  /** Section 5.1 of the JSON-RPC 2.0 Specification: unknown method. */
  const MethodNotFound: int := -32601
  /** Section 5.1 of the JSON-RPC 2.0 Specification: internal error. */
  const InternalError: int := -32603

  /** `tool.dict()`. */
  function ToolValue(t: Tool): Value {
    Object(map["name" := Str(t.name), "description" := Str(t.description), "input_schema" := t.inputSchema])
  }

  /** `resource.dict()`. */
  function ResourceValue(r: Resource): Value {
    Object(map["uri" := Str(r.uri), "name" := Str(r.name),
               "description" := OptStr(r.description), "mime_type" := OptStr(r.mimeType)])
  }

  function ToolValues(ts: seq<Tool>): (r: seq<Value>)
    ensures |r| == |ts| && forall k :: 0 <= k < |ts| ==> r[k] == ToolValue(ts[k])
  {
    seq(|ts|, k requires 0 <= k < |ts| => ToolValue(ts[k]))
  }

  function ResourceValues(rs: seq<Resource>): (r: seq<Value>)
    ensures |r| == |rs| && forall k :: 0 <= k < |rs| ==> r[k] == ResourceValue(rs[k])
  {
    seq(|rs|, k requires 0 <= k < |rs| => ResourceValue(rs[k]))
  }

  function ToolNames(ts: seq<Tool>): (r: seq<string>)
    ensures |r| == |ts| && forall k :: 0 <= k < |ts| ==> r[k] == ts[k].name
  {
    seq(|ts|, k requires 0 <= k < |ts| => ts[k].name)
  }

  /** A JSON-schema property `{"type": ty, "description": text}`. */
  function Property(ty: string, text: string): Value {
    Object(map["type" := Str(ty), "description" := Str(text)])
  }

  /** An object schema with the given properties and required keys. */
  function Schema(properties: map<string, Value>, required: seq<string>): Value {
    var names := seq(|required|, k requires 0 <= k < |required| => Str(required[k]));
    Object(map["type" := Str("object"), "properties" := Object(properties), "required" := List(names)])
  }

  /** An object schema without a list of required keys. */
  function OpenSchema(properties: map<string, Value>): Value {
    Object(map["type" := Str("object"), "properties" := Object(properties)])
  }

  /** A RESPONSE envelope carrying `result`. */
  function Respond(result: Value): (m: Message)
    ensures m.kind == Response && m.error.None? && m.result == result
  {
    Message(Response, None, None, None, result, None)
  }

  /** An ERROR envelope carrying `{"code": code, "message": text}`. */
  function Fail(code: int, text: string): (m: Message)
    ensures m.kind == Error && m.error.Some? && m.result == Null
    ensures m.error.value == map["code" := Int(code), "message" := Str(text)]
    ensures "code" in m.error.value && ErrorCode(m) == Some(code)
  {
    Message(Error, None, None, None, Null, Some(map["code" := Int(code), "message" := Str(text)]))
  }

  /** Python's rendering of the optional method name in an error text. */
  function MethodText(methodName: Option<string>): string {
    if methodName.Some? then methodName.value else "None"
  }

  /** The answer of a server to a method it does not implement. */
  function UnknownMethod(methodName: Option<string>): Message {
    Fail(MethodNotFound, "Method not found: " + MethodText(methodName))
  }

  /** The answer of a server whose handler raised; `detail` is the exception text. */
  function Internal(detail: string): Message {
    Fail(InternalError, "Internal error: " + detail)
  }

  /** The error code an ERROR envelope carries, if any. */
  function ErrorCode(m: Message): Option<int> {
    if m.error.Some? && "code" in m.error.value && m.error.value["code"].Int? then
      Some(m.error.value["code"].i)
    else None
  }

  /** What a server's `handle_request` may answer: a plain response or a coded error. */
  predicate WellFormedAnswer(m: Message) {
    (m.kind == Response && m.error.None?)
    || (m.kind == Error && m.error.Some? && m.error.value != map[]
        && ErrorCode(m) in {Some(MethodNotFound), Some(InternalError)})
  }

  /** Python's `str()` of a tool name or URI inside an exception text. */
  function ValueText(v: Option<Value>): string {
    match v
    case None => "None"
    case Some(Str(s)) => s
    case Some(_) => "<value>"
  }

  /** The exception text Python gives for a call on the missing parameters. */
  const NoParams := "'NoneType' object has no attribute 'get'"

  /**
   * The `handle_request` every tool server shares. `execute` is the server's
   * `_execute_tool` and `read` its `_read_resource` (an Err is the text of the
   * exception they raise); `resources` is None for a server that answers the
   * resource methods as unknown.
   */
  function Serve(m: Message, tools: seq<Tool>, resources: Option<seq<Resource>>,
                 execute: (Option<Value>, Value) -> Result<Value, string>,
                 read: Option<Value> -> Result<Value, string>): Message
  {
    if m.methodName == Some("tools/list") then
      Respond(Object(map["tools" := List(ToolValues(tools))]))
    else if m.methodName == Some("tools/call") then
      if m.params.None? then Internal(NoParams)
      else
        var p := Object(m.params.value);
        match execute(Get(p, "name"), GetOr(p, "arguments", Object(map[])).value)
        case Ok(v) => Respond(v)
        case Err(e) => Internal(e)
    else if m.methodName == Some("resources/list") && resources.Some? then
      Respond(Object(map["resources" := List(ResourceValues(resources.value))]))
    else if m.methodName == Some("resources/read") && resources.Some? then
      if m.params.None? then Internal(NoParams)
      else
        match read(Get(Object(m.params.value), "uri"))
        case Ok(v) => Respond(Object(map["contents" := v]))
        case Err(e) => Internal(e)
    else UnknownMethod(m.methodName)
  }

  /** The four methods a server with resources implements. */
  predicate KnownMethod(methodName: Option<string>, withResources: bool) {
    methodName in {Some("tools/list"), Some("tools/call")}
    || (withResources && methodName in {Some("resources/list"), Some("resources/read")})
  }

  /** The tool call or resource read a known method performs fails: missing parameters, or the executor or reader raised. */
  predicate HandlerFails(m: Message, resources: Option<seq<Resource>>,
                         execute: (Option<Value>, Value) -> Result<Value, string>,
                         read: Option<Value> -> Result<Value, string>)
  {
    if m.methodName == Some("tools/call") then
      m.params.None? || execute(Get(Object(m.params.value), "name"), GetOr(Object(m.params.value), "arguments", Object(map[])).value).Err?
    else if m.methodName == Some("resources/read") && resources.Some? then
      m.params.None? || read(Get(Object(m.params.value), "uri")).Err?
    else false
  }

  /**
   * Every answer of a server is well formed; an unknown method gets -32601,
   * and exactly the failures of its tools and resources get -32603. A known
   * method that does not fail is a RESPONSE: the listings, the executor's
   * value for a tool call (its `arguments`, `{}` when absent), and the
   * reader's value under "contents" for a read.
   */
  lemma ServeAnswers(m: Message, tools: seq<Tool>, resources: Option<seq<Resource>>,
                     execute: (Option<Value>, Value) -> Result<Value, string>,
                     read: Option<Value> -> Result<Value, string>)
    ensures WellFormedAnswer(Serve(m, tools, resources, execute, read))
    ensures ErrorCode(Serve(m, tools, resources, execute, read)) == Some(MethodNotFound)
            <==> !KnownMethod(m.methodName, resources.Some?)
    ensures !KnownMethod(m.methodName, resources.Some?) ==>
            Serve(m, tools, resources, execute, read) == UnknownMethod(m.methodName)
    ensures ErrorCode(Serve(m, tools, resources, execute, read)) == Some(InternalError)
            <==> KnownMethod(m.methodName, resources.Some?) && HandlerFails(m, resources, execute, read)
    ensures Serve(m, tools, resources, execute, read).kind == Response
            <==> KnownMethod(m.methodName, resources.Some?) && !HandlerFails(m, resources, execute, read)
    ensures m.methodName == Some("tools/list") ==>
            Serve(m, tools, resources, execute, read) == Respond(Object(map["tools" := List(ToolValues(tools))]))
    ensures m.methodName == Some("tools/call") && m.params.Some? ==>
            var p := Object(m.params.value);
            var out := execute(Get(p, "name"), GetOr(p, "arguments", Object(map[])).value);
            Serve(m, tools, resources, execute, read) == (if out.Ok? then Respond(out.value) else Internal(out.error))
    ensures m.methodName == Some("resources/list") && resources.Some? ==>
            Serve(m, tools, resources, execute, read) == Respond(Object(map["resources" := List(ResourceValues(resources.value))]))
    ensures m.methodName == Some("resources/read") && resources.Some? && m.params.Some? ==>
            var out := read(Get(Object(m.params.value), "uri"));
            Serve(m, tools, resources, execute, read) == (if out.Ok? then Respond(Object(map["contents" := out.value])) else Internal(out.error))
    ensures KnownMethod(m.methodName, resources.Some?) && m.methodName in {Some("tools/call"), Some("resources/read")} && m.params.None? ==>
            Serve(m, tools, resources, execute, read) == Internal(NoParams)
  {
  }

  /** The exceptions the client raises. */
  datatype ClientError =
    | ServerNotFound(server: string)
    | McpError(error: map<string, Value>)

  function ClientErrorText(e: ClientError): string {
    match e
    case ServerNotFound(s) => "Server " + s + " not found"
    case McpError(_) => "MCP Error"
  }

  /** The REQUEST envelope `send_request` builds; absent parameters become `{}`. */
  function Envelope(methodName: string, params: Option<map<string, Value>>): (m: Message)
    ensures m.kind == Request && m.id.None? && m.methodName == Some(methodName)
    ensures m.result == Null && m.error.None?
    ensures m.params.Some?
    ensures params.Some? ==> m.params.value == params.value
    ensures params.None? ==> m.params.value == map[]
  {
    Message(Request, None, Some(methodName), Some(if params.Some? then params.value else map[]), Null, None)
  }

  /** How `send_request` reads an answer: a non-empty error raises, otherwise the result is returned. */
  function Unwrap(response: Message): (r: Result<Value, ClientError>)
    ensures r.Err? <==> response.error.Some? && response.error.value != map[]
    ensures r.Err? ==> r.error == McpError(response.error.value)
    ensures r.Ok? ==> r.value == response.result
  {
    if response.error.Some? && response.error.value != map[] then Err(McpError(response.error.value))
    else Ok(response.result)
  }

  /**
   * Every answer a server may give reaches the caller the intended way: a
   * RESPONSE hands back its result, an ERROR raises with its error.
   */
  lemma UnwrapAnswer(m: Message)
    requires WellFormedAnswer(m)
    ensures m.kind == Response ==> Unwrap(m) == Ok(m.result)
    ensures m.kind == Error ==> Unwrap(m).Err? && Unwrap(m).error == McpError(m.error.value)
  {
  }

  /**
   * A tool call sent through the client and answered by the shared routing
   * reaches the caller as the executor's value, or as an "MCP Error" carrying
   * -32603 and the executor's exception text; the tool name and the
   * arguments (`{}` when absent) arrive unchanged.
   */
  lemma CallThroughEnvelope(params: Option<map<string, Value>>, tools: seq<Tool>, resources: Option<seq<Resource>>,
                            execute: (Option<Value>, Value) -> Result<Value, string>,
                            read: Option<Value> -> Result<Value, string>)
    ensures var p := if params.Some? then params.value else map[];
      var name := if "name" in p then Some(p["name"]) else None;
      var arguments := if "arguments" in p then p["arguments"] else Object(map[]);
      var out := execute(name, arguments);
      Unwrap(Serve(Envelope("tools/call", params), tools, resources, execute, read))
      == (if out.Ok? then Ok(out.value)
          else Err(McpError(map["code" := Int(InternalError), "message" := Str("Internal error: " + out.error)])))
  {
    var m := Envelope("tools/call", params);
    ServeAnswers(m, tools, resources, execute, read);
  }

  /** A listing sent through the client hands back one `tool.dict()` per registered tool. */
  lemma ListThroughEnvelope(params: Option<map<string, Value>>, tools: seq<Tool>, resources: Option<seq<Resource>>,
                            execute: (Option<Value>, Value) -> Result<Value, string>,
                            read: Option<Value> -> Result<Value, string>)
    ensures Unwrap(Serve(Envelope("tools/list", params), tools, resources, execute, read))
            == Ok(Object(map["tools" := List(ToolValues(tools))]))
  {
  }

  /**
   * `MCPServer.call_tool`: a name that is not registered is refused with
   * "Tool <name> not found"; a registered one goes to the executor.
   */
  function CallTool<R>(tools: seq<Tool>, execute: (string, Value) -> R, name: string, arguments: Value): (r: Result<R, string>)
    ensures r.Err? <==> name !in ToolNames(tools)
    ensures r.Err? ==> r.error == "Tool " + name + " not found"
    ensures r.Ok? ==> r.value == execute(name, arguments)
  {
    if name !in ToolNames(tools) then Err("Tool " + name + " not found") else Ok(execute(name, arguments))
  }

  /**
   * `call_tool` accepts exactly the names the `tools/list` answer advertises:
   * every listed entry's "name" is callable, and a refused name is on no
   * listed entry.
   */
  lemma ListedToolsCallable<R>(tools: seq<Tool>, execute: (string, Value) -> R, name: string, arguments: Value)
    ensures CallTool(tools, execute, name, arguments).Ok?
            <==> exists k :: 0 <= k < |tools| && Get(ToolValues(tools)[k], "name") == Some(Str(name))
  {
    if CallTool(tools, execute, name, arguments).Ok? {
      var k :| 0 <= k < |tools| && ToolNames(tools)[k] == name;
      assert Get(ToolValues(tools)[k], "name") == Some(Str(name));
    } else {
      forall k | 0 <= k < |tools| ensures Get(ToolValues(tools)[k], "name") != Some(Str(name)) {
        assert ToolNames(tools)[k] != name;
      }
    }
  }

  /**
   * The client: a registry of servers by name. `S` is the type of a server,
   * and the server's `handle_request` / `list_tools` / `list_resources` are
   * passed in as functions of the server.
   */
  class Client<S> {
    var servers: map<string, S>

    constructor ()
      ensures servers == map[]
    {
      servers := map[];
    }

    /** Registering under a name that is already taken replaces that server. */
    method RegisterServer(name: string, server: S)
      modifies this
      ensures servers == old(servers)[name := server]
    {
      servers := servers[name := server];
    }

    /**
     * `send_request`: an unknown server name raises before any server is
     * contacted; otherwise exactly the named server receives one REQUEST
     * envelope, and its answer is unwrapped. `delivered` is the envelope the
     * server received, if any.
     */
    method SendRequest(handle: (S, Message) -> Message, name: string, methodName: string,
                       params: Option<map<string, Value>>)
      returns (r: Result<Value, ClientError>, ghost delivered: Option<Message>)
      ensures name !in servers ==> r == Err(ServerNotFound(name)) && delivered.None?
      ensures name in servers ==> delivered == Some(Envelope(methodName, params))
      ensures name in servers ==> r == Unwrap(handle(servers[name], Envelope(methodName, params)))
    {
      if name !in servers {
        return Err(ServerNotFound(name)), None;
      }
      var message := Envelope(methodName, params);
      var response := handle(servers[name], message);
      delivered := Some(message);
      r := Unwrap(response);
    }

    /** `list_server_tools`: the named server's listing, or "Server <name> not found". */
    function ListServerTools(listTools: S -> seq<Tool>, name: string): (r: Result<seq<Tool>, ClientError>)
      reads this
      ensures r.Err? <==> name !in servers
      ensures r.Err? ==> r.error == ServerNotFound(name)
      ensures r.Ok? ==> r.value == listTools(servers[name])
    {
      if name !in servers then Err(ServerNotFound(name)) else Ok(listTools(servers[name]))
    }

    /** `list_server_resources`: the named server's listing, or "Server <name> not found". */
    function ListServerResources(listResources: S -> seq<Resource>, name: string): (r: Result<seq<Resource>, ClientError>)
      reads this
      ensures r.Err? <==> name !in servers
      ensures r.Err? ==> r.error == ServerNotFound(name)
      ensures r.Ok? ==> r.value == listResources(servers[name])
    {
      if name !in servers then Err(ServerNotFound(name)) else Ok(listResources(servers[name]))
    }
  }

  /**
   * Once a server is registered under a name, the listing and the requests
   * for that name reach exactly that server, whatever was registered before.
   */
  method RegisterThenCall<S>(c: Client<S>, name: string, server: S, listTools: S -> seq<Tool>,
                             listResources: S -> seq<Resource>,
                             handle: (S, Message) -> Message, methodName: string, params: Option<map<string, Value>>)
    returns (listing: Result<seq<Tool>, ClientError>, resources: Result<seq<Resource>, ClientError>,
             r: Result<Value, ClientError>)
    modifies c
    ensures c.servers == old(c.servers)[name := server]
    ensures listing == Ok(listTools(server))
    ensures resources == Ok(listResources(server))
    ensures r == Unwrap(handle(server, Envelope(methodName, params)))
  {
    c.RegisterServer(name, server);
    listing := c.ListServerTools(listTools, name);
    resources := c.ListServerResources(listResources, name);
    ghost var delivered;
    r, delivered := c.SendRequest(handle, name, methodName, params);
  }
}
