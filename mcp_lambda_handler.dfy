/**
  `MCPLambdaHandler`: the object a Lambda function builds once and calls for
  every event.  It holds the tool dicts, which `tool` writes, the session store,
  whose table the handlers change, and the current session id, which each
  request resets and sets.  Every method is proved equal to the function of
  module `Dispatch` that specifies it, so the properties proved there are
  properties of these methods.
 */
module Handler {
  import opened Wrappers
  import opened Values
  import opened Constants
  import opened Models
  import opened Session
  import opened SessionDataView
  import opened ToolSchema
  import opened Arguments
  import opened Registry
  import opened Responses
  import Dispatch

  class McpLambdaHandler {
    const name: string
    const version: string
    /** The key order of `tools`, which is the order `tools/list` reports. */
    var toolOrder: seq<string>
    var tools: map<string, ToolDescriptor>
    var toolImplementations: map<string, Callable>
    const sessionStore: DynamoDBSessionStore
    /** The `current_session_id` context variable. */
    var currentSessionId: Option<string>

    /** The two tool dicts, as one registry value. */
    function Registered(): Tools
      reads this
    {
      Tools(toolOrder, tools, toolImplementations)
    }

    function Info(): Dispatch.ServerInfo {
      Dispatch.ServerInfo(name, version)
    }

    ghost predicate Valid()
      reads this
    {
      Registered().Valid()
    }

    constructor(name: string, version: string, sessionStore: DynamoDBSessionStore)
      ensures Valid()
      ensures this.name == name && this.version == version && this.sessionStore == sessionStore
      ensures Registered() == Registry.Empty && currentSessionId.None?
    {
      this.name := name;
      this.version := version;
      this.sessionStore := sessionStore;
      toolOrder := [];
      tools := map[];
      toolImplementations := map[];
      currentSessionId := None;
    }

    /**
      The `tool()` decorator applied to `f`: builds the descriptor from the
      name, the docstring and the hints, records it and `f` under the tool name,
      and returns a wrapper that behaves as `f`.
     */
    method Tool(f: Callable) returns (wrapper: Callable)
      requires Valid()
      modifies this
      ensures Valid()
      ensures Registered() == Register(old(Registered()), f)
      ensures wrapper == f
      ensures currentSessionId == old(currentSessionId)
    {
      ghost var expected := Register(Registered(), f);
      var toolName := ToolName(f.funcName);
      var descriptor := BuildDescriptor(f);
      if toolName !in tools {
        toolOrder := toolOrder + [toolName];
      }
      tools := tools[toolName := descriptor];
      toolImplementations := toolImplementations[toolName := f];
      wrapper := f;
      assert Registered() == expected;
    }

    /** `_handle_http_delete`: deletes the named session, if one was named. */
    method HandleHttpDelete(sessionId: Option<string>, deleteOk: bool) returns (r: Response)
      modifies sessionStore
      ensures (r, sessionStore.table) == Dispatch.HandleHttpDelete(old(sessionStore.table), sessionId, deleteOk)
    {
      if Truthy(sessionId) {
        var _ := sessionStore.DeleteSession(sessionId.value, deleteOk);
        r := Response(HttpNoContent, None, NoBody);
      } else {
        r := Response(HttpNotFound, None, NoBody);
      }
    }

    /** `_handle_initialize`: a failing `create_session` raises, which `handle_request` turns into an internal error. */
    method HandleInitialize(id: Option<RequestId>, sessionId: Option<string>, env: Dispatch.Env) returns (r: Response)
      requires env.freshId !in sessionStore.table
      modifies this, sessionStore
      ensures Dispatch.Outcome(r, sessionStore.table, currentSessionId)
              == Dispatch.HandleInitialize(Info(), old(sessionStore.table), id, sessionId, old(currentSessionId), env)
      ensures Registered() == old(Registered())
    {
      var created := sessionStore.CreateSession(None, env.freshId, env.now, env.putOk);
      if created.None? {
        r := Dispatch.InternalError(id, sessionId);
      } else {
        currentSessionId := created;
        var result := InitializeResult(McpProtocolVersion, name, version, true, true);
        r := CreateSuccessResponse(result, id, created);
      }
    }

    /** `_handle_tools_list`: every descriptor, in registration order. */
    method HandleToolsList(id: Option<RequestId>, sessionId: Option<string>) returns (r: Response)
      requires Valid()
      ensures r == Dispatch.HandleToolsList(Registered(), id, sessionId)
    {
      r := CreateSuccessResponse(ToolsResult(ListTools(Registered())), id, sessionId);
    }

    /** `_handle_ping`. */
    method HandlePing(id: Option<RequestId>, sessionId: Option<string>) returns (r: Response)
      ensures r == Dispatch.HandlePing(id, sessionId)
    {
      r := CreateSuccessResponse(EmptyResult, id, sessionId);
    }

    /** `_validate_session`: whether the store still holds a live session; the read may delete an expired one. */
    method ValidateSession(sessionId: string, env: Dispatch.Env) returns (valid: bool)
      modifies sessionStore
      ensures var fetched := GetSpec(old(sessionStore.table), sessionId, env.now, env.readOk, env.deleteOk);
              valid == fetched.data.Some? && sessionStore.table == fetched.table
    {
      var data := sessionStore.GetSession(sessionId, env.now, env.readOk, env.deleteOk);
      valid := data.Some?;
    }

    /** Converts the arguments and calls the tool, turning what it raises into a tool error. */
    method CallTool(f: Callable, args: Json, id: Option<RequestId>, sessionId: Option<string>) returns (r: Response)
      ensures r == Dispatch.RunTool(f, args, id, sessionId)
    {
      if !args.JObject? {
        r := Dispatch.ToolError("'" + PyTypeName(args) + "' object has no attribute 'items'", id, sessionId);
        return;
      }
      var converted := ConvertArguments(args.members, f.hints);
      if converted.Failure? {
        r := Dispatch.ToolError(converted.error, id, sessionId);
        return;
      }
      match f.run(converted.value)
      case Returned(text) =>
        r := CreateSuccessResponse(ContentResult([text]), id, sessionId);
      case Raised(message) =>
        r := Dispatch.ToolError(message, id, sessionId);
    }

    /** `_handle_tools_call` for a request that names a session. */
    method HandleToolsCall(req: JsonRpcRequest, sessionId: string, env: Dispatch.Env) returns (r: Response)
      requires Valid()
      modifies sessionStore
      ensures (r, sessionStore.table) == Dispatch.HandleToolsCall(Registered(), old(sessionStore.table), req, sessionId, env)
    {
      var sid := Some(sessionId);
      if !Dispatch.ParamsTruthy(req.params) {
        r := CreateErrorResponse(ErrorInvalidParams, "Missing parameters for tools/call", req.id, None, sid, None);
        return;
      }
      var valid := ValidateSession(sessionId, env);
      if !valid {
        r := CreateErrorResponse(ErrorServer, "Invalid or expired session", req.id, None, None, Some(HttpNotFound));
        return;
      }
      match req.params.value
      case PArray(_) =>
        r := Dispatch.InternalError(req.id, sid);
      case PObject(ms) =>
        var toolName := Lookup(ms, "name");
        if toolName.Some? && Unhashable(toolName.value) {
          r := Dispatch.InternalError(req.id, sid);
        } else if !(toolName.Some? && toolName.value.JStr? && toolName.value.s in tools) {
          r := CreateErrorResponse(ErrorMethodNotFound, "Tool '" + PyStr(toolName) + "' not found", req.id, None, sid, None);
        } else {
          r := CallTool(toolImplementations[toolName.value.s], LookupOr(ms, "arguments", JObject([])), req.id, sid);
        }
    }

    /** `_handle_http_post`: content type, notification, session presence, then the method's handler. */
    method HandleHttpPost(p: PostEvent, sessionId: Option<string>, env: Dispatch.Env) returns (r: Response)
      requires Valid() && env.freshId !in sessionStore.table
      modifies this, sessionStore
      ensures Dispatch.Outcome(r, sessionStore.table, currentSessionId)
              == Dispatch.HandleHttpPost(Info(), old(Registered()), old(sessionStore.table), p, sessionId, old(currentSessionId), env)
      ensures Registered() == old(Registered())
    {
      var req := p.body;
      if !IsContentTypeJson(p.headers) {
        r := CreateErrorResponse(ErrorParse, "Unsupported Media Type", None, None, None, None);
      } else if req.mcpMethod == Notification {
        r := Response(HttpAccepted, Some(StandardHeaders(None)), EmptyText);
      } else if !Truthy(sessionId) && req.mcpMethod != Initialize {
        r := CreateErrorResponse(ErrorInvalidRequest, "Session required", req.id, None, None, Some(HttpBadRequest));
      } else if req.mcpMethod == Initialize {
        r := HandleInitialize(req.id, sessionId, env);
      } else if req.mcpMethod == ToolsList {
        r := HandleToolsList(req.id, sessionId);
      } else if req.mcpMethod == ToolsCall {
        r := HandleToolsCall(req, sessionId.value, env);
      } else {
        r := HandlePing(req.id, sessionId);
      }
    }

    /**
      `handle_request`: resets the current session, validates the event for its
      verb, makes its session header current, and hands it to the verb's handler.
     */
    method HandleRequest(e: Event, env: Dispatch.Env) returns (r: Response)
      requires Valid() && env.freshId !in sessionStore.table
      modifies this, sessionStore
      ensures var o := Dispatch.HandleRequest(Info(), old(Registered()), old(sessionStore.table), e, env);
              r == o.response && sessionStore.table == o.table && currentSessionId == o.current
      ensures Registered() == old(Registered())
    {
      currentSessionId := None;
      if e.httpMethod == Some(JStr("DELETE")) {
        var parsed := ParseDelete(e);
        if parsed.Failure? {
          r := Dispatch.ParseErrorResponse;
          return;
        }
        var sid := McpSessionId(parsed.value.headers);
        if Truthy(sid) {
          currentSessionId := sid;
        }
        r := HandleHttpDelete(sid, env.deleteOk);
      } else if e.httpMethod == Some(JStr("POST")) {
        var parsed := ParsePost(e);
        if parsed.Failure? {
          r := Dispatch.ParseErrorResponse;
          return;
        }
        var sid := McpSessionId(parsed.value.headers);
        if Truthy(sid) {
          currentSessionId := sid;
        }
        r := HandleHttpPost(parsed.value, sid, env);
      } else {
        r := CreateErrorResponse(ErrorInvalidRequest, "Unsupported HTTP method: " + PyStr(e.httpMethod), None, None, None, None);
      }
    }

    /** `get_session`: a view over the current session's data, or `None` without a live current session. */
    method GetSession(now: real, readOk: bool, deleteOk: bool) returns (session: Option<SessionData>)
      modifies sessionStore
      ensures var fetched := GetSpec(old(sessionStore.table), currentSessionId.GetOr(""), now, readOk, deleteOk);
              && (session.Some? <==> Truthy(currentSessionId) && fetched.data.Some?)
              && (session.Some? ==> fresh(session.value) && fresh(session.value.data)
                                    && session.value.data.entries == fetched.data.value)
              && sessionStore.table == if Truthy(currentSessionId) then fetched.table else old(sessionStore.table)
    {
      if !Truthy(currentSessionId) {
        return None;
      }
      var data := sessionStore.GetSession(currentSessionId.value, now, readOk, deleteOk);
      if data.None? {
        return None;
      }
      var dict := new DataDict(data.value);
      var view := new SessionData(dict);
      session := Some(view);
    }

    /** `set_session`: replaces the current session's data; `false` without a current session or when the write fails. */
    method SetSession(data: Data, ok: bool) returns (updated: bool)
      modifies sessionStore
      ensures updated <==> Truthy(currentSessionId) && ok
      ensures Truthy(currentSessionId) ==> sessionStore.table == UpdateSpec(old(sessionStore.table), currentSessionId.value, data, ok).1
      ensures !Truthy(currentSessionId) ==> sessionStore.table == old(sessionStore.table)
    {
      if !Truthy(currentSessionId) {
        return false;
      }
      updated := sessionStore.UpdateSession(currentSessionId.value, data, ok);
    }

    /**
      `update_session`: reads the current session, lets `updater` change its data
      in place through the view, and writes the view's dict back.  An updater
      that raises (`Failure`) propagates its exception and nothing is written.
     */
    method UpdateSession(updater: Data -> Result<Data, string>, now: real, readOk: bool, deleteOk: bool, ok: bool)
      returns (updated: Result<bool, string>)
      modifies sessionStore
      ensures var fetched := GetSpec(old(sessionStore.table), currentSessionId.GetOr(""), now, readOk, deleteOk);
              if !Truthy(currentSessionId) then updated == Success(false) && sessionStore.table == old(sessionStore.table)
              else if fetched.data.None? then updated == Success(false) && sessionStore.table == fetched.table
              else match updater(fetched.data.value)
                case Failure(e) => updated == Failure(e) && sessionStore.table == old(sessionStore.table)
                case Success(d) => updated == Success(ok) && sessionStore.table == UpdateSpec(old(sessionStore.table), currentSessionId.value, d, ok).1
    {
      var session := GetSession(now, readOk, deleteOk);
      if session.None? {
        return Success(false);
      }
      var view := session.value;
      var changed := updater(view.data.entries);
      if changed.Failure? {
        return Failure(changed.error);
      }
      view.data.entries := changed.value;
      var written := SetSession(view.Raw().entries, ok);
      updated := Success(written);
    }
  }
}
