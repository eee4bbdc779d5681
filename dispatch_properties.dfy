/**
  The handler's promises, stated over the request specification: how each verb,
  each validation failure and each step of the POST pipeline answers, what the
  session table may become, and how status codes and headers follow the error
  codes.
 */
module DispatchProperties {
  import opened Wrappers
  import opened Strings
  import opened Values
  import opened Constants
  import opened Models
  import opened Session
  import opened ToolSchema
  import opened Registry
  import opened Responses
  import opened Dispatch

  /** A verb other than POST and DELETE is an invalid request, whatever else the event holds. */
  lemma UnsupportedVerbRejected(info: ServerInfo, tools: Tools, t: Table, e: Event, env: Env)
    requires tools.Valid()
    requires e.httpMethod != Some(JStr("POST")) && e.httpMethod != Some(JStr("DELETE"))
    ensures var o := HandleRequest(info, tools, t, e, env);
            o.response.statusCode == HttpBadRequest
            && o.response.body == JsonBody(RpcError(None, ErrorObject(ErrorInvalidRequest, "Unsupported HTTP method: " + PyStr(e.httpMethod)), None))
            && o.table == t && o.current == None
  {
  }

  /** An event that does not validate for its verb gets "Parse error" (400), no id, no session header, and changes nothing. */
  lemma InvalidEventIsParseError(info: ServerInfo, tools: Tools, t: Table, e: Event, env: Env)
    requires tools.Valid()
    requires (e.httpMethod == Some(JStr("POST")) && ParsePost(e).Failure?)
             || (e.httpMethod == Some(JStr("DELETE")) && ParseDelete(e).Failure?)
    ensures var o := HandleRequest(info, tools, t, e, env);
            o.response.statusCode == HttpBadRequest
            && o.response.body == JsonBody(RpcError(None, ErrorObject(ErrorInvalidRequest, "Parse error"), None))
            && o.response.headers == Some(ResponseHeaders(ContentTypeJson, McpVersion, None))
            && o.table == t && o.current == None
  {
  }

  /** An unknown method name is a parse error, never "Method not found". */
  lemma UnknownMethodIsParseError(info: ServerInfo, tools: Tools, t: Table, e: Event, env: Env)
    requires tools.Valid()
    requires e.httpMethod == Some(JStr("POST")) && e.body.Some? && e.body.value.Parsed?
    requires var doc := e.body.value.doc;
             doc.JObject? && Lookup(doc.members, "method").Some? && Lookup(doc.members, "method").value.JStr?
             && var s := Lookup(doc.members, "method").value.s;
                !StartsWith(s, NotificationPrefix) && forall m :: MethodValue(m) != s
    ensures HandleRequest(info, tools, t, e, env).response == ParseErrorResponse
  {
    UnknownMethodRejected(e.body.value.doc);
  }

  /** A DELETE naming a session removes it (204); without one it answers 404; neither response has headers or a body. */
  lemma DeleteOutcome(info: ServerInfo, tools: Tools, t: Table, e: Event, env: Env)
    requires tools.Valid()
    requires e.httpMethod == Some(JStr("DELETE")) && ParseDelete(e).Success?
    ensures var sid := ParseDelete(e).value.headers.sessionId;
            var o := HandleRequest(info, tools, t, e, env);
            o.response.headers.None? && o.response.body == NoBody
            && (Truthy(sid) ==> o.response.statusCode == HttpNoContent && o.table == DeleteSpec(t, sid.value, env.deleteOk).1)
            && (!Truthy(sid) ==> o.response.statusCode == HttpNotFound && o.table == t)
  {
  }

  /** Deleting the same session twice leaves the table as deleting it once, and both answer 204. */
  lemma DeleteTwice(info: ServerInfo, tools: Tools, t: Table, e: Event, env: Env)
    requires tools.Valid()
    requires e.httpMethod == Some(JStr("DELETE")) && ParseDelete(e).Success?
    requires Truthy(ParseDelete(e).value.headers.sessionId) && env.deleteOk
    ensures var first := HandleRequest(info, tools, t, e, env);
            var second := HandleRequest(info, tools, first.table, e, env);
            second.table == first.table && second.response == first.response
  {
    DeleteIdempotent(t, ParseDelete(e).value.headers.sessionId.value);
  }

  /** The POST event of a request that validated. */
  predicate ValidPost(e: Event) {
    e.httpMethod == Some(JStr("POST")) && ParsePost(e).Success?
  }

  /** A content type other than exactly `application/json` gets -32700 "Unsupported Media Type" (400), before anything else. */
  lemma WrongContentTypeRejected(info: ServerInfo, tools: Tools, t: Table, e: Event, env: Env)
    requires tools.Valid() && ValidPost(e)
    requires !IsContentTypeJson(ParsePost(e).value.headers)
    ensures var o := HandleRequest(info, tools, t, e, env);
            o.response.statusCode == HttpBadRequest
            && o.response.body == JsonBody(RpcError(None, ErrorObject(ErrorParse, "Unsupported Media Type"), None))
            && o.table == t
  {
  }

  /** A notification is accepted with 202, an empty body and no session header, with or without a session. */
  lemma NotificationAccepted(info: ServerInfo, tools: Tools, t: Table, e: Event, env: Env)
    requires tools.Valid() && ValidPost(e)
    requires IsContentTypeJson(ParsePost(e).value.headers) && ParsePost(e).value.body.mcpMethod == Notification
    ensures var o := HandleRequest(info, tools, t, e, env);
            o.response == Response(HttpAccepted, Some(ResponseHeaders(ContentTypeJson, McpVersion, None)), EmptyText)
            && o.table == t
  {
  }

  /** Without a session id, any method but `initialize` (and notifications) gets -32600 "Session required" (400). */
  lemma SessionRequired(info: ServerInfo, tools: Tools, t: Table, e: Event, env: Env)
    requires tools.Valid() && ValidPost(e)
    requires var p := ParsePost(e).value;
             IsContentTypeJson(p.headers) && !Truthy(p.headers.sessionId)
             && p.body.mcpMethod != Notification && p.body.mcpMethod != Initialize
    ensures var o := HandleRequest(info, tools, t, e, env);
            o.response.statusCode == HttpBadRequest
            && o.response.body == JsonBody(RpcError(ParsePost(e).value.body.id, ErrorObject(ErrorInvalidRequest, "Session required"), None))
            && o.response.headers == Some(ResponseHeaders(ContentTypeJson, McpVersion, None))
            && o.table == t && o.current == None
  {
  }

  /**
    `initialize` always creates a new session, even when the request named one:
    the new id is stored with a 24-hour expiry, returned in `MCP-Session-Id`,
    and made current; the result reports the protocol version and the tool
    capabilities.
   */
  lemma InitializeMintsSession(info: ServerInfo, tools: Tools, t: Table, e: Event, env: Env)
    requires tools.Valid() && ValidPost(e) && FreshFor(env, t) && env.putOk
    requires IsContentTypeJson(ParsePost(e).value.headers) && ParsePost(e).value.body.mcpMethod == Initialize
    ensures var o := HandleRequest(info, tools, t, e, env);
            o.response.statusCode == HttpOk
            && o.response.headers == Some(ResponseHeaders(ContentTypeJson, McpVersion, Some(env.freshId)))
            && o.response.body == JsonBody(RpcResult(ParsePost(e).value.body.id,
                                   InitializeResult(McpProtocolVersion, info.name, info.version, true, true)))
            && env.freshId !in t && env.freshId in o.table && o.table[env.freshId] == NewRecord(None, env.now)
            && o.table - {env.freshId} == t
            && o.current == Some(env.freshId)
  {
    assert t[env.freshId := NewRecord(None, env.now)] - {env.freshId} == t;
  }

  /** When the session cannot be stored, `initialize` answers 500 "Internal server error" and stores nothing. */
  lemma InitializeStoreFailure(info: ServerInfo, tools: Tools, t: Table, e: Event, env: Env)
    requires tools.Valid() && ValidPost(e) && !env.putOk
    requires IsContentTypeJson(ParsePost(e).value.headers) && ParsePost(e).value.body.mcpMethod == Initialize
    ensures var o := HandleRequest(info, tools, t, e, env);
            o.response.statusCode == HttpInternalServerError
            && o.response.body == JsonBody(RpcError(ParsePost(e).value.body.id, ErrorObject(ErrorInternal, "Internal server error"), None))
            && o.table == t
  {
  }

  /** `tools/list` reports every descriptor in registration order, and neither it nor `ping` reads or writes the store. */
  lemma ListAndPingLeaveStoreAlone(info: ServerInfo, tools: Tools, t: Table, e: Event, env: Env)
    requires tools.Valid() && ValidPost(e)
    requires var p := ParsePost(e).value;
             IsContentTypeJson(p.headers) && Truthy(p.headers.sessionId)
             && (p.body.mcpMethod == ToolsList || p.body.mcpMethod == Ping)
    ensures var p := ParsePost(e).value;
            var o := HandleRequest(info, tools, t, e, env);
            o.table == t && o.response.statusCode == HttpOk
            && o.response.headers == Some(ResponseHeaders(ContentTypeJson, McpVersion, p.headers.sessionId))
            && (p.body.mcpMethod == ToolsList ==> o.response.body == JsonBody(RpcResult(p.body.id, ToolsResult(ListTools(tools)))))
            && (p.body.mcpMethod == Ping ==> o.response.body == JsonBody(RpcResult(p.body.id, EmptyResult)))
  {
  }

  /** A POST whose `tools/call` passed the pipeline checks before the method handler. */
  predicate ReachesToolsCall(e: Event) {
    ValidPost(e)
    && var p := ParsePost(e).value;
       IsContentTypeJson(p.headers) && Truthy(p.headers.sessionId) && p.body.mcpMethod == ToolsCall
  }

  /** Missing or empty params are rejected (-32602, 400) before the session is even looked up. */
  lemma ToolsCallMissingParams(info: ServerInfo, tools: Tools, t: Table, e: Event, env: Env)
    requires tools.Valid() && ReachesToolsCall(e)
    requires !ParamsTruthy(ParsePost(e).value.body.params)
    ensures var p := ParsePost(e).value;
            var o := HandleRequest(info, tools, t, e, env);
            o.response.statusCode == HttpBadRequest
            && o.response.body == JsonBody(RpcError(p.body.id, ErrorObject(ErrorInvalidParams, "Missing parameters for tools/call"), None))
            && o.table == t
  {
  }

  /** A session the store does not return (absent, expired or unreadable) gets -32000 with 404 and no session header. */
  lemma ToolsCallInvalidSession(info: ServerInfo, tools: Tools, t: Table, e: Event, env: Env)
    requires tools.Valid() && ReachesToolsCall(e)
    requires ParamsTruthy(ParsePost(e).value.body.params)
    requires var sid := ParsePost(e).value.headers.sessionId.value;
             !env.readOk || sid !in t || Expired(t[sid], env.now)
    ensures var p := ParsePost(e).value;
            var o := HandleRequest(info, tools, t, e, env);
            o.response.statusCode == HttpNotFound
            && o.response.body == JsonBody(RpcError(p.body.id, ErrorObject(ErrorServer, "Invalid or expired session"), None))
            && o.response.headers == Some(ResponseHeaders(ContentTypeJson, McpVersion, None))
            && o.table == GetSpec(t, p.headers.sessionId.value, env.now, env.readOk, env.deleteOk).table
  {
  }

  /** A live session and a name that is not registered get -32601 "Tool '<name>' not found" (404). */
  lemma ToolsCallUnknownTool(info: ServerInfo, tools: Tools, t: Table, e: Event, env: Env)
    requires tools.Valid() && ReachesToolsCall(e)
    requires var p := ParsePost(e).value;
             var sid := p.headers.sessionId.value;
             env.readOk && sid in t && !Expired(t[sid], env.now)
             && p.body.params.Some? && p.body.params.value.PObject? && |p.body.params.value.members| > 0
             && var name := Lookup(p.body.params.value.members, "name");
                name.Some? && name.value.JStr? && name.value.s !in tools.descriptors
    ensures var p := ParsePost(e).value;
            var name := Lookup(p.body.params.value.members, "name").value.s;
            var o := HandleRequest(info, tools, t, e, env);
            o.response.statusCode == HttpNotFound
            && o.response.body == JsonBody(RpcError(p.body.id, ErrorObject(ErrorMethodNotFound, "Tool '" + name + "' not found"), None))
            && o.table == t
  {
    var p := ParsePost(e).value;
    var sid := p.headers.sessionId;
    RequestViaPost(info, tools, t, e, env);
    var call := HandleToolsCall(tools, t, p.body, sid.value, env);
    assert HandleHttpPost(info, tools, t, p, sid, CurrentAfterParse(sid), env) == Outcome(call.0, call.1, CurrentAfterParse(sid));
  }

  /**
    On a live session, params that are a non-empty list, or an object whose
    `name` is a list or a dict, make the handler raise: 500 "Internal server
    error" with the request id and the session header, and no change.
   */
  lemma ToolsCallInternalError(info: ServerInfo, tools: Tools, t: Table, e: Event, env: Env)
    requires tools.Valid() && ReachesToolsCall(e)
    requires var p := ParsePost(e).value;
             var sid := p.headers.sessionId.value;
             env.readOk && sid in t && !Expired(t[sid], env.now)
             && p.body.params.Some?
             && match p.body.params.value
                case PArray(items) => |items| > 0
                case PObject(ms) => |ms| > 0 && Lookup(ms, "name").Some? && Unhashable(Lookup(ms, "name").value)
    ensures var p := ParsePost(e).value;
            var o := HandleRequest(info, tools, t, e, env);
            o.response == InternalError(p.body.id, p.headers.sessionId)
            && o.response.statusCode == HttpInternalServerError
            && o.response.body == JsonBody(RpcError(p.body.id, ErrorObject(ErrorInternal, "Internal server error"), None))
            && o.response.headers == Some(ResponseHeaders(ContentTypeJson, McpVersion, p.headers.sessionId))
            && o.table == t
  {
    var p := ParsePost(e).value;
    var sid := p.headers.sessionId;
    RequestViaPost(info, tools, t, e, env);
    var call := HandleToolsCall(tools, t, p.body, sid.value, env);
    assert HandleHttpPost(info, tools, t, p, sid, CurrentAfterParse(sid), env) == Outcome(call.0, call.1, CurrentAfterParse(sid));
    assert call == (InternalError(p.body.id, sid), t);
  }

  /**
    The session `initialize` creates passes the session check of a later
    `tools/call` that names it, at any time from its creation to its expiry:
    the call never answers "Invalid or expired session" and leaves the table
    as it was.
   */
  lemma InitializedSessionIsLive(info: ServerInfo, tools: Tools, t: Table, e: Event, env: Env, e2: Event, env2: Env)
    requires tools.Valid() && ValidPost(e) && FreshFor(env, t) && env.putOk && env.now >= 0.0
    requires IsContentTypeJson(ParsePost(e).value.headers) && ParsePost(e).value.body.mcpMethod == Initialize
    requires ReachesToolsCall(e2) && ParsePost(e2).value.headers.sessionId == Some(env.freshId)
    requires ParamsTruthy(ParsePost(e2).value.body.params) && env2.readOk
    requires env.now <= env2.now <= (Trunc(env.now) + SessionLifetime) as real
    ensures var t1 := HandleRequest(info, tools, t, e, env).table;
            var o := HandleRequest(info, tools, t1, e2, env2);
            !IsErrorWithCode(o.response, ErrorServer) && o.table == t1
  {
    var t1 := HandleRequest(info, tools, t, e, env).table;
    InitializedSessionStored(info, tools, t, e, env, env2.now);
    var p := ParsePost(e2).value;
    RequestViaPost(info, tools, t1, e2, env2);
    ToolsCallOnLiveSession(tools, t1, p.body, env.freshId, env2);
    var call := HandleToolsCall(tools, t1, p.body, env.freshId, env2);
    assert HandleHttpPost(info, tools, t1, p, Some(env.freshId), CurrentAfterParse(Some(env.freshId)), env2)
           == Outcome(call.0, call.1, CurrentAfterParse(Some(env.freshId)));
  }

  /** The session `initialize` stores is live from its creation to its expiry. */
  lemma InitializedSessionStored(info: ServerInfo, tools: Tools, t: Table, e: Event, env: Env, later: real)
    requires tools.Valid() && ValidPost(e) && FreshFor(env, t) && env.putOk && env.now >= 0.0
    requires IsContentTypeJson(ParsePost(e).value.headers) && ParsePost(e).value.body.mcpMethod == Initialize
    requires env.now <= later <= (Trunc(env.now) + SessionLifetime) as real
    ensures var t1 := HandleRequest(info, tools, t, e, env).table;
            env.freshId in t1 && !Expired(t1[env.freshId], later)
  {
    InitializeMintsSession(info, tools, t, e, env);
    NewSessionLifetime(None, env.now, later);
  }

  /** `tools/call` with params on a live session never answers with the session error and leaves the table alone. */
  lemma ToolsCallOnLiveSession(tools: Tools, t: Table, req: JsonRpcRequest, sessionId: string, env: Env)
    requires tools.Valid() && ParamsTruthy(req.params)
    requires env.readOk && sessionId in t && !Expired(t[sessionId], env.now)
    ensures var (r, t') := HandleToolsCall(tools, t, req, sessionId, env);
            !IsErrorWithCode(r, ErrorServer) && t' == t
  {
    match req.params.value
    case PArray(_) =>
    case PObject(ms) =>
      var name := Lookup(ms, "name");
      if !(name.Some? && Unhashable(name.value)) && name.Some? && name.value.JStr? && name.value.s in tools.descriptors {
        RunToolResponseShape(tools.implementations[name.value.s], LookupOr(ms, "arguments", JObject([])), req.id, Some(sessionId));
      }
  }

  /** A validated POST is handled by the POST pipeline with its own session header. */
  lemma RequestViaPost(info: ServerInfo, tools: Tools, t: Table, e: Event, env: Env)
    requires tools.Valid() && ValidPost(e)
    ensures var p := ParsePost(e).value;
            HandleRequest(info, tools, t, e, env)
              == HandleHttpPost(info, tools, t, p, p.headers.sessionId, CurrentAfterParse(p.headers.sessionId), env)
  {
  }

  /** A registered tool that returns gives exactly one text item holding the returned text. */
  lemma ToolsCallReturns(info: ServerInfo, tools: Tools, t: Table, e: Event, env: Env, name: string, kwargs: map<string, ArgValue>, text: string)
    requires tools.Valid() && ReachesToolsCall(e)
    requires var p := ParsePost(e).value;
             var sid := p.headers.sessionId.value;
             env.readOk && sid in t && !Expired(t[sid], env.now)
             && p.body.params.Some? && p.body.params.value.PObject? && |p.body.params.value.members| > 0
             && var ms := p.body.params.value.members;
                Lookup(ms, "name") == Some(JStr(name)) && name in tools.descriptors
                && LookupOr(ms, "arguments", JObject([])).JObject?
                && Arguments.ConvertArgs(LookupOr(ms, "arguments", JObject([])).members, tools.implementations[name].hints) == Success(kwargs)
                && tools.implementations[name].run(kwargs) == Returned(text)
    ensures var p := ParsePost(e).value;
            var o := HandleRequest(info, tools, t, e, env);
            o.response == CreateSuccessResponse(ContentResult([text]), p.body.id, p.headers.sessionId)
            && o.table == t
  {
    var p := ParsePost(e).value;
    var sid := p.headers.sessionId;
    var ms := p.body.params.value.members;
    RequestViaPost(info, tools, t, e, env);
    var call := HandleToolsCall(tools, t, p.body, sid.value, env);
    assert HandleHttpPost(info, tools, t, p, sid, CurrentAfterParse(sid), env) == Outcome(call.0, call.1, CurrentAfterParse(sid));
    assert call == (RunTool(tools.implementations[name], LookupOr(ms, "arguments", JObject([])), p.body.id, sid), t);
  }

  /** Responses whose status agrees with their body: the code map for errors (or 404 for the session error), 200 for results. */
  predicate StatusConsistent(r: Response) {
    match r.body
    case NoBody => r.statusCode == HttpNoContent || r.statusCode == HttpNotFound
    case EmptyText => r.statusCode == HttpAccepted
    case JsonBody(RpcResult(_, _)) => r.statusCode == HttpOk
    case JsonBody(RpcError(_, err, _)) =>
      r.statusCode == ErrorCodeToHttpStatus(err.code) || (err.code == ErrorServer && r.statusCode == HttpNotFound)
  }

  /** Every response with a body carries `Content-Type: application/json` and `MCP-Version: 0.6`. */
  predicate CarriesStandardHeaders(r: Response) {
    r.body != NoBody ==> r.headers.Some? && r.headers.value.contentType == ContentTypeJson && r.headers.value.mcpVersion == McpVersion
  }

  /** Whether a response is a JSON-RPC error with the given code. */
  predicate IsErrorWithCode(r: Response, code: int) {
    r.body.JsonBody? && r.body.rpc.RpcError? && r.body.rpc.error.code == code
  }

  /** A tool call's response: well formed, and an error only with -32603. */
  lemma RunToolResponseShape(f: Callable, args: Json, id: Option<RequestId>, sessionId: Option<string>)
    ensures var r := RunTool(f, args, id, sessionId);
            StatusConsistent(r) && CarriesStandardHeaders(r) && r.body.JsonBody?
            && (r.body.rpc.RpcError? ==> r.body.rpc.error.code == ErrorInternal)
  {
  }

  /** The `tools/call` handler's responses are well formed and leave the table as the session read left it. */
  lemma ToolsCallResponseShape(tools: Tools, t: Table, req: JsonRpcRequest, sessionId: string, env: Env)
    requires tools.Valid()
    ensures var (r, t') := HandleToolsCall(tools, t, req, sessionId, env);
            StatusConsistent(r) && CarriesStandardHeaders(r) && r.body.JsonBody?
            && (t' == t || t' == GetSpec(t, sessionId, env.now, env.readOk, env.deleteOk).table)
  {
    if ParamsTruthy(req.params) && GetSpec(t, sessionId, env.now, env.readOk, env.deleteOk).data.Some? {
      match req.params.value
      case PArray(_) =>
      case PObject(ms) =>
        var name := Lookup(ms, "name");
        if !(name.Some? && Unhashable(name.value)) && name.Some? && name.value.JStr? && name.value.s in tools.descriptors {
          RunToolResponseShape(tools.implementations[name.value.s], LookupOr(ms, "arguments", JObject([])), req.id, Some(sessionId));
        }
    }
  }

  /**
    The POST pipeline's outcomes: well formed; -32601 only from `tools/call`;
    the table changed only by `initialize` (adding the new id) or by the session
    read of `tools/call`; the current session kept or set to the new id.
   */
  lemma PostOutcomeShape(info: ServerInfo, tools: Tools, t: Table, p: PostEvent, sid: Option<string>, current: Option<string>, env: Env)
    requires tools.Valid()
    ensures var o := HandleHttpPost(info, tools, t, p, sid, current, env);
            StatusConsistent(o.response) && CarriesStandardHeaders(o.response)
            && (IsErrorWithCode(o.response, ErrorMethodNotFound) ==>
                  IsContentTypeJson(p.headers) && Truthy(sid) && p.body.mcpMethod == ToolsCall)
            && (o.table == t
                || (o.table == CreateSpec(t, env.freshId, None, env.now, true).1 && p.body.mcpMethod == Initialize)
                || (o.table == GetSpec(t, sid.value, env.now, env.readOk, env.deleteOk).table && Truthy(sid) && p.body.mcpMethod == ToolsCall))
            && (o.current == current || (o.current == Some(env.freshId) && p.body.mcpMethod == Initialize))
  {
    var req := p.body;
    var o := HandleHttpPost(info, tools, t, p, sid, current, env);
    if !IsContentTypeJson(p.headers) || req.mcpMethod == Notification || (!Truthy(sid) && req.mcpMethod != Initialize) {
    } else if req.mcpMethod == Initialize {
      assert o == HandleInitialize(info, t, req.id, sid, current, env);
    } else if req.mcpMethod == ToolsList {
      assert o == Outcome(HandleToolsList(tools, req.id, sid), t, current);
    } else if req.mcpMethod == ToolsCall {
      ToolsCallResponseShape(tools, t, req, sid.value, env);
      var call := HandleToolsCall(tools, t, req, sid.value, env);
      assert o == Outcome(call.0, call.1, current);
    } else {
      assert o == Outcome(HandlePing(req.id, sid), t, current);
    }
  }

  /** Every response's status agrees with its body, and every response with a body carries the standard headers. */
  lemma ResponsesWellFormed(info: ServerInfo, tools: Tools, t: Table, e: Event, env: Env)
    requires tools.Valid()
    ensures StatusConsistent(HandleRequest(info, tools, t, e, env).response)
    ensures CarriesStandardHeaders(HandleRequest(info, tools, t, e, env).response)
  {
    if ValidPost(e) {
      var p := ParsePost(e).value;
      RequestViaPost(info, tools, t, e, env);
      PostOutcomeShape(info, tools, t, p, p.headers.sessionId, CurrentAfterParse(p.headers.sessionId), env);
    }
  }

  /** -32601 is produced only by `tools/call` with an unregistered name: the fallback "Method not found" is unreachable. */
  lemma MethodNotFoundOnlyFromToolsCall(info: ServerInfo, tools: Tools, t: Table, e: Event, env: Env)
    requires tools.Valid()
    ensures IsErrorWithCode(HandleRequest(info, tools, t, e, env).response, ErrorMethodNotFound) ==> ReachesToolsCall(e)
  {
    if ValidPost(e) {
      var p := ParsePost(e).value;
      RequestViaPost(info, tools, t, e, env);
      PostOutcomeShape(info, tools, t, p, p.headers.sessionId, CurrentAfterParse(p.headers.sessionId), env);
    }
  }

  /**
    The session table changes in three ways only: `initialize` adds the new
    session, DELETE removes the named one, and `tools/call` removes the named one
    when it has expired.  No other item is added, removed or changed.
   */
  lemma TableFrame(info: ServerInfo, tools: Tools, t: Table, e: Event, env: Env)
    requires tools.Valid()
    ensures var t' := HandleRequest(info, tools, t, e, env).table;
            forall k :: k in t' && k != env.freshId ==> k in t && t'[k] == t[k]
    ensures var t' := HandleRequest(info, tools, t, e, env).table;
            forall k :: k in t && k !in t' ==>
              ReachesToolsCall(e) || (e.httpMethod == Some(JStr("DELETE")) && ParseDelete(e).Success?)
  {
    if ValidPost(e) {
      var p := ParsePost(e).value;
      var sid := p.headers.sessionId;
      RequestViaPost(info, tools, t, e, env);
      PostOutcomeShape(info, tools, t, p, sid, CurrentAfterParse(sid), env);
      if Truthy(sid) {
        GetOnlyRemovesItsOwnItem(t, sid.value, env.now, env.readOk, env.deleteOk);
      }
    }
  }

  /** The current session after a request: none, the validated non-empty session header, or the session `initialize` created. */
  lemma CurrentSessionAfterRequest(info: ServerInfo, tools: Tools, t: Table, e: Event, env: Env)
    requires tools.Valid()
    ensures var o := HandleRequest(info, tools, t, e, env);
            o.current.None?
            || (ValidPost(e) && ParsePost(e).value.body.mcpMethod == Initialize && o.current == Some(env.freshId))
            || (ValidPost(e) && o.current == ParsePost(e).value.headers.sessionId && Truthy(o.current))
            || (e.httpMethod == Some(JStr("DELETE")) && ParseDelete(e).Success?
                && o.current == ParseDelete(e).value.headers.sessionId && Truthy(o.current))
  {
    if ValidPost(e) {
      var p := ParsePost(e).value;
      RequestViaPost(info, tools, t, e, env);
      PostOutcomeShape(info, tools, t, p, p.headers.sessionId, CurrentAfterParse(p.headers.sessionId), env);
    }
  }
}
