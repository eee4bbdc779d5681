/**
  What one request does: the response the handler returns, the session table it
  leaves, and the current session id it leaves set.  These functions specify
  the methods of `McpLambdaHandler`; the lemmas state the handler's promises.
 */
module Dispatch {
  import opened Wrappers
  import opened Strings
  import opened Values
  import opened Constants
  import opened Models
  import opened Session
  import opened ToolSchema
  import opened Arguments
  import opened Registry
  import opened Responses

  /** The server's name and version, reported by `initialize`. */
  datatype ServerInfo = ServerInfo(name: string, version: string)

  /**
    What the environment supplies to one request: the clock, the id the next
    `uuid4()` returns, and whether each backend call (get, put, delete) succeeds.
   */
  datatype Env = Env(now: real, freshId: string, readOk: bool, putOk: bool, deleteOk: bool)

  /** A uuid is never empty and never names a stored session. */
  predicate FreshFor(env: Env, t: Table) {
    env.freshId != "" && env.freshId !in t
  }

  /** The response, the session table afterwards, and the current session id afterwards. */
  datatype Outcome = Outcome(response: Response, table: Table, current: Option<string>)

  /** The response to any request whose event does not validate. */
  const ParseErrorResponse: Response := CreateErrorResponse(ErrorInvalidRequest, "Parse error", None, None, None, None)

  /** The response to an exception escaping a method handler. */
  function InternalError(id: Option<RequestId>, sessionId: Option<string>): Response {
    CreateErrorResponse(ErrorInternal, "Internal server error", id, None, sessionId, None)
  }

  /** The response to a tool that raised (or whose arguments did not convert) with `message`. */
  function ToolError(message: string, id: Option<RequestId>, sessionId: Option<string>): Response {
    CreateErrorResponse(ErrorInternal, "Error executing tool: " + message, id, Some([message]), sessionId, None)
  }

  /** Python truthiness of `params`: present and non-empty. */
  predicate ParamsTruthy(p: Option<Params>) {
    match p
    case None => false
    case Some(PObject(ms)) => |ms| > 0
    case Some(PArray(items)) => |items| > 0
  }

  /** `_handle_http_delete`: 204 after deleting a given session, 404 without one; neither has headers or a body. */
  function HandleHttpDelete(t: Table, sessionId: Option<string>, deleteOk: bool): (r: (Response, Table))
    ensures Truthy(sessionId) ==> r.0 == Response(HttpNoContent, None, NoBody) && r.1 == DeleteSpec(t, sessionId.value, deleteOk).1
    ensures !Truthy(sessionId) ==> r.0 == Response(HttpNotFound, None, NoBody) && r.1 == t
  {
    if Truthy(sessionId) then (Response(HttpNoContent, None, NoBody), DeleteSpec(t, sessionId.value, deleteOk).1)
    else (Response(HttpNotFound, None, NoBody), t)
  }

  /** `_handle_initialize`: a new session is created and becomes current, whatever session the request named. */
  function HandleInitialize(info: ServerInfo, t: Table, id: Option<RequestId>, sessionId: Option<string>,
                            current: Option<string>, env: Env): (o: Outcome)
    ensures env.putOk ==> o.current == Some(env.freshId) && o.table == CreateSpec(t, env.freshId, None, env.now, true).1
    ensures env.putOk ==> o.response == CreateSuccessResponse(
              InitializeResult(McpProtocolVersion, info.name, info.version, true, true), id, Some(env.freshId))
    ensures !env.putOk ==> o == Outcome(InternalError(id, sessionId), t, current)
  {
    var (created, t') := CreateSpec(t, env.freshId, None, env.now, env.putOk);
    match created
    case None => Outcome(InternalError(id, sessionId), t', current)
    case Some(newId) =>
      var result := InitializeResult(McpProtocolVersion, info.name, info.version, true, true);
      Outcome(CreateSuccessResponse(result, id, Some(newId)), t', Some(newId))
  }

  /** `_handle_tools_list`. */
  function HandleToolsList(tools: Tools, id: Option<RequestId>, sessionId: Option<string>): (r: Response)
    requires tools.Valid()
    ensures r.statusCode == HttpOk && r.headers == Some(StandardHeaders(sessionId))
    ensures r.body.JsonBody? && r.body.rpc.RpcResult? && r.body.rpc.id == id && r.body.rpc.result.ToolsResult?
    ensures var listed := r.body.rpc.result.tools;
            |listed| == |tools.order| && forall i :: 0 <= i < |tools.order| ==> listed[i] == tools.descriptors[tools.order[i]]
  {
    CreateSuccessResponse(ToolsResult(ListTools(tools)), id, sessionId)
  }

  /** `_handle_ping`. */
  function HandlePing(id: Option<RequestId>, sessionId: Option<string>): (r: Response)
    ensures r.statusCode == HttpOk && r.headers == Some(StandardHeaders(sessionId))
    ensures r.body == JsonBody(RpcResult(id, EmptyResult))
  {
    CreateSuccessResponse(EmptyResult, id, sessionId)
  }

  /** Calling a registered tool with the `arguments` value: conversion, the call, and its text or its error. */
  function RunTool(f: Callable, args: Json, id: Option<RequestId>, sessionId: Option<string>): (r: Response)
    ensures !args.JObject? ==> r == ToolError("'" + PyTypeName(args) + "' object has no attribute 'items'", id, sessionId)
    ensures args.JObject? && ConvertArgs(args.members, f.hints).Failure? ==>
              r == ToolError(ConvertArgs(args.members, f.hints).error, id, sessionId)
    ensures args.JObject? && ConvertArgs(args.members, f.hints).Success? ==>
              match f.run(ConvertArgs(args.members, f.hints).value)
              case Returned(text) => r == CreateSuccessResponse(ContentResult([text]), id, sessionId)
              case Raised(message) => r == ToolError(message, id, sessionId)
  {
    if !args.JObject? then ToolError("'" + PyTypeName(args) + "' object has no attribute 'items'", id, sessionId)
    else
      match ConvertArgs(args.members, f.hints)
      case Failure(message) => ToolError(message, id, sessionId)
      case Success(kwargs) =>
        match f.run(kwargs)
        case Returned(text) => CreateSuccessResponse(ContentResult([text]), id, sessionId)
        case Raised(message) => ToolError(message, id, sessionId)
  }

  /**
    `_handle_tools_call` for a request that names session `sessionId`.  The
    checks run in order: params present, session valid (its read may delete an
    expired item), params an object, name hashable, name registered.
   */
  function HandleToolsCall(tools: Tools, t: Table, req: JsonRpcRequest, sessionId: string, env: Env): (r: (Response, Table))
    requires tools.Valid()
  {
    var id := req.id;
    var sid := Some(sessionId);
    if !ParamsTruthy(req.params) then
      (CreateErrorResponse(ErrorInvalidParams, "Missing parameters for tools/call", id, None, sid, None), t)
    else
      var fetched := GetSpec(t, sessionId, env.now, env.readOk, env.deleteOk);
      if fetched.data.None? then
        (CreateErrorResponse(ErrorServer, "Invalid or expired session", id, None, None, Some(HttpNotFound)), fetched.table)
      else
        match req.params.value
        case PArray(_) => (InternalError(id, sid), fetched.table)     // a list has no `.get`
        case PObject(ms) =>
          var name := Lookup(ms, "name");
          if name.Some? && Unhashable(name.value) then (InternalError(id, sid), fetched.table)
          else if !(name.Some? && name.value.JStr? && name.value.s in tools.descriptors) then
            (CreateErrorResponse(ErrorMethodNotFound, "Tool '" + PyStr(name) + "' not found", id, None, sid, None), fetched.table)
          else
            (RunTool(tools.implementations[name.value.s], LookupOr(ms, "arguments", JObject([])), id, sid), fetched.table)
  }

  /**
    `_handle_http_post`: content type, then notification, then session
    presence, then the method.
   */
  function HandleHttpPost(info: ServerInfo, tools: Tools, t: Table, p: PostEvent, sessionId: Option<string>,
                          current: Option<string>, env: Env): Outcome
    requires tools.Valid()
  {
    var req := p.body;
    var id := req.id;
    if !IsContentTypeJson(p.headers) then
      Outcome(CreateErrorResponse(ErrorParse, "Unsupported Media Type", None, None, None, None), t, current)
    else if req.mcpMethod == Notification then
      Outcome(Response(HttpAccepted, Some(StandardHeaders(None)), EmptyText), t, current)
    else if !Truthy(sessionId) && req.mcpMethod != Initialize then
      Outcome(CreateErrorResponse(ErrorInvalidRequest, "Session required", id, None, None, Some(HttpBadRequest)), t, current)
    else if req.mcpMethod == Initialize then
      HandleInitialize(info, t, id, sessionId, current, env)
    else if req.mcpMethod == ToolsList then
      Outcome(HandleToolsList(tools, id, sessionId), t, current)
    else if req.mcpMethod == ToolsCall then
      var (response, t') := HandleToolsCall(tools, t, req, sessionId.value, env);
      Outcome(response, t', current)
    else if req.mcpMethod == Ping then
      Outcome(HandlePing(id, sessionId), t, current)
    else
      Outcome(CreateErrorResponse(ErrorMethodNotFound, "Method not found: " + MethodValue(req.mcpMethod), id, None, sessionId, None), t, current)
  }

  /** The session id the handler makes current once the event has validated. */
  function CurrentAfterParse(sessionId: Option<string>): Option<string> {
    if Truthy(sessionId) then sessionId else None
  }

  /** `handle_request`: the current session is reset, the event validated for its verb, and the verb handled. */
  function HandleRequest(info: ServerInfo, tools: Tools, t: Table, e: Event, env: Env): Outcome
    requires tools.Valid()
  {
    if e.httpMethod == Some(JStr("DELETE")) then
      match ParseDelete(e)
      case Failure(_) => Outcome(ParseErrorResponse, t, None)
      case Success(d) =>
        var sid := McpSessionId(d.headers);
        var (response, t') := HandleHttpDelete(t, sid, env.deleteOk);
        Outcome(response, t', CurrentAfterParse(sid))
    else if e.httpMethod == Some(JStr("POST")) then
      match ParsePost(e)
      case Failure(_) => Outcome(ParseErrorResponse, t, None)
      case Success(p) =>
        var sid := McpSessionId(p.headers);
        HandleHttpPost(info, tools, t, p, sid, CurrentAfterParse(sid), env)
    else
      Outcome(CreateErrorResponse(ErrorInvalidRequest, "Unsupported HTTP method: " + PyStr(e.httpMethod), None, None, None, None), t, None)
  }
}
