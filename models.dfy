/**
  The request envelope the handler accepts: the five MCP methods, the JSON-RPC
  request record with its validation rules, case-insensitive request headers,
  and the POST and DELETE event shapes.  Every check here either yields the
  validated record or rejects; the handler turns any rejection into one
  "Parse error" response.  Requests are taken already decoded from JSON text.
 */
module Models {
  import opened Wrappers
  import opened Strings
  import opened Values
  import opened Constants

  /** The methods of the protocol; any `notifications/...` method is `Notification`. */
  datatype McpMethod = Initialize | Notification | ToolsList | ToolsCall | Ping

  /** The enum value of each member. */
  function MethodValue(m: McpMethod): string {
    match m
    case Initialize => "initialize"
    case Notification => "notification"
    case ToolsList => "tools/list"
    case ToolsCall => "tools/call"
    case Ping => "ping"
  }

  const NotificationPrefix: string := "notifications/"

  /** `MCPMethod(v)`: the member whose value is `v`, if there is one. */
  function MethodFromValue(v: string): (r: Option<McpMethod>)
    ensures r.Some? ==> MethodValue(r.value) == v
    ensures r.None? <==> forall m :: MethodValue(m) != v
  {
    if v == "initialize" then Some(Initialize)
    else if v == "notification" then Some(Notification)
    else if v == "tools/list" then Some(ToolsList)
    else if v == "tools/call" then Some(ToolsCall)
    else if v == "ping" then Some(Ping)
    else None
  }

  /**
    The `method` field validator: `None` is rejected, any `notifications/...`
    string is a notification, and any other string must be the value of a member.
   */
  function ValidateMethod(v: Option<string>): (r: Option<McpMethod>)
    ensures v.None? ==> r.None?
    ensures v.Some? && StartsWith(v.value, NotificationPrefix) ==> r == Some(Notification)
    ensures v.Some? && !StartsWith(v.value, NotificationPrefix) ==>
              (r.Some? <==> exists m :: MethodValue(m) == v.value)
              && (r.Some? ==> MethodValue(r.value) == v.value)
  {
    match v
    case None => None
    case Some(s) =>
      if StartsWith(s, NotificationPrefix) then Some(Notification)
      else MethodFromValue(s)
  }

  /** Every member's own value validates to that member (none of them starts with `notifications/`). */
  lemma {:induction false} MethodValueRoundTrip(m: McpMethod)
    ensures ValidateMethod(Some(MethodValue(m))) == Some(m)
  {
    assert |MethodValue(m)| < |NotificationPrefix|;
  }

  /** A JSON-RPC request id: a string or an integer. */
  datatype RequestId = IdStr(s: string) | IdInt(n: int)

  /** JSON-RPC params: an object or an array. */
  datatype Params = PObject(members: seq<(string, Json)>) | PArray(items: seq<Json>)

  /** A validated JSON-RPC 2.0 request. */
  datatype JsonRpcRequest = JsonRpcRequest(id: Option<RequestId>, mcpMethod: McpMethod, params: Option<Params>)

  /** The `method` field as decoded: absent, or a value the validator receives. */
  function ParseMethodField(v: Option<Json>): (r: Option<McpMethod>)
    ensures r.Some? ==> v.Some? && v.value.JStr? && ValidateMethod(Some(v.value.s)) == r
  {
    match v
    case None => None                           // the field is required
    case Some(JNull) => ValidateMethod(None)    // "Method is required"
    case Some(JStr(s)) => ValidateMethod(Some(s))
    case Some(_) => None                        // `v.startswith` fails on a non-string
  }

  /** The optional `id` field: absent or null, a string, or an integer. */
  function ParseId(v: Option<Json>): (r: Result<Option<RequestId>, string>)
    ensures r.Success? <==> v.None? || v.value.JNull? || v.value.JStr? || v.value.JInt?
  {
    match v
    case None => Success(None)
    case Some(JNull) => Success(None)
    case Some(JStr(s)) => Success(Some(IdStr(s)))
    case Some(JInt(n)) => Success(Some(IdInt(n)))
    case Some(_) => Failure("id must be a string or an integer")
  }

  /** The optional `params` field: absent or null, an object, or an array. */
  function ParseParams(v: Option<Json>): (r: Result<Option<Params>, string>)
    ensures r.Success? <==> v.None? || v.value.JNull? || v.value.JObject? || v.value.JArray?
  {
    match v
    case None => Success(None)
    case Some(JNull) => Success(None)
    case Some(JObject(ms)) => Success(Some(PObject(ms)))
    case Some(JArray(items)) => Success(Some(PArray(items)))
    case Some(_) => Failure("params must be an object or an array")
  }

  /** `JSONRPCRequest` validation of a decoded body. */
  function ParseRequest(doc: Json): (r: Result<JsonRpcRequest, string>)
    ensures r.Success? <==>
              doc.JObject?
              && Lookup(doc.members, "jsonrpc") == Some(JStr("2.0"))
              && ParseMethodField(Lookup(doc.members, "method")).Some?
              && ParseId(Lookup(doc.members, "id")).Success?
              && ParseParams(Lookup(doc.members, "params")).Success?
    ensures r.Success? ==>
              var m := Lookup(doc.members, "method");
              m.Some? && m.value.JStr?
              && (StartsWith(m.value.s, NotificationPrefix) ==> r.value.mcpMethod == Notification)
              && (!StartsWith(m.value.s, NotificationPrefix) ==> MethodValue(r.value.mcpMethod) == m.value.s)
  {
    if !doc.JObject? then Failure("the body is not a JSON object")
    else
      var ms := doc.members;
      if Lookup(ms, "jsonrpc") != Some(JStr("2.0")) then Failure("jsonrpc must be '2.0'")
      else
        match ParseMethodField(Lookup(ms, "method"))
        case None => Failure("invalid method")
        case Some(m) =>
          match ParseId(Lookup(ms, "id"))
          case Failure(e) => Failure(e)
          case Success(id) =>
            match ParseParams(Lookup(ms, "params"))
            case Failure(e) => Failure(e)
            case Success(params) => Success(JsonRpcRequest(id, m, params))
  }

  /** A method name that is neither a member's value nor a notification is rejected by validation. */
  lemma UnknownMethodRejected(doc: Json)
    requires doc.JObject?
    requires Lookup(doc.members, "method").Some? && Lookup(doc.members, "method").value.JStr?
    requires var s := Lookup(doc.members, "method").value.s;
             !StartsWith(s, NotificationPrefix) && forall m :: MethodValue(m) != s
    ensures ParseRequest(doc).Failure?
  {
  }

  /** The request headers the handler reads. `contentType` is `None` when the header is absent. */
  datatype RequestHeaders = RequestHeaders(contentType: Option<string>, sessionId: Option<string>, version: Option<string>)

  /**
    The headers with every key lower-cased; when two keys lower-case alike the
    later one wins, as in a dict comprehension.
   */
  function LowerKeys(hs: seq<(string, string)>): map<string, string> {
    if hs == [] then map[]
    else LowerKeys(hs[..|hs| - 1])[Lower(hs[|hs| - 1].0) := hs[|hs| - 1].1]
  }

  /** The position of the last header whose key lower-cases to `k`, or -1. */
  function LastKeyIndex(hs: seq<(string, string)>, k: string): (i: int)
    ensures -1 <= i < |hs|
    ensures i >= 0 ==> Lower(hs[i].0) == k
    ensures forall j :: i < j < |hs| ==> Lower(hs[j].0) != k
  {
    if hs == [] then -1
    else if Lower(hs[|hs| - 1].0) == k then |hs| - 1
    else LastKeyIndex(hs[..|hs| - 1], k)
  }

  /** A lower-cased key is present exactly when some header spells it, and it carries the last such header's value. */
  lemma {:induction false} LowerKeysKeepsLast(hs: seq<(string, string)>, k: string)
    ensures k in LowerKeys(hs) <==> LastKeyIndex(hs, k) >= 0
    ensures k in LowerKeys(hs) ==> LowerKeys(hs)[k] == hs[LastKeyIndex(hs, k)].1
  {
    if hs != [] {
      LowerKeysKeepsLast(hs[..|hs| - 1], k);
    }
  }

  /** Two header lists whose keys differ only in letter case are read alike. */
  lemma {:induction false} LowerKeysIgnoresCase(hs: seq<(string, string)>, gs: seq<(string, string)>)
    requires |hs| == |gs|
    requires forall i :: 0 <= i < |hs| ==> Lower(hs[i].0) == Lower(gs[i].0) && hs[i].1 == gs[i].1
    ensures LowerKeys(hs) == LowerKeys(gs)
  {
    if hs != [] {
      LowerKeysIgnoresCase(hs[..|hs| - 1], gs[..|gs| - 1]);
    }
  }

  function Get(m: map<string, string>, k: string): Option<string> {
    if k in m then Some(m[k]) else None
  }

  /** `McpApiGatewayProxyEventHeaders` validation: headers are required and a present content-type must be non-empty. */
  function ParseHeaders(raw: Option<seq<(string, string)>>): (r: Result<RequestHeaders, string>)
    ensures r.Success? <==> raw.Some? && Get(LowerKeys(raw.value), "content-type") != Some("")
    ensures r.Success? ==>
              var m := LowerKeys(raw.value);
              r.value == RequestHeaders(Get(m, "content-type"), Get(m, "mcp-session-id"), Get(m, "mcp-version"))
  {
    match raw
    case None => Failure("headers are required")
    case Some(hs) =>
      var m := LowerKeys(hs);
      if Get(m, "content-type") == Some("") then Failure("content-type must not be empty")
      else Success(RequestHeaders(Get(m, "content-type"), Get(m, "mcp-session-id"), Get(m, "mcp-version")))
  }

  /** The request body: JSON text that decodes to a value, or text that does not. */
  datatype BodyText = Parsed(doc: Json) | Unparsable

  /** The event the gateway delivers; `httpMethod` is the decoded value of that key, `None` when the key is missing. */
  datatype Event = Event(httpMethod: Option<Json>, headers: Option<seq<(string, string)>>, body: Option<BodyText>)

  datatype PostEvent = PostEvent(headers: RequestHeaders, body: JsonRpcRequest)
  datatype DeleteEvent = DeleteEvent(headers: RequestHeaders)

  /** `MCPPostAPIGatewayProxyEvent`: method POST, valid headers, and a body that validates as a JSON-RPC request. */
  function ParsePost(e: Event): (r: Result<PostEvent, string>)
    ensures r.Success? <==>
              e.httpMethod == Some(JStr("POST")) && ParseHeaders(e.headers).Success?
              && e.body.Some? && e.body.value.Parsed? && ParseRequest(e.body.value.doc).Success?
    ensures r.Success? ==>
              r.value.headers == ParseHeaders(e.headers).value && r.value.body == ParseRequest(e.body.value.doc).value
  {
    if e.httpMethod != Some(JStr("POST")) then Failure("httpMethod must be POST")
    else
      match ParseHeaders(e.headers)
      case Failure(err) => Failure(err)
      case Success(h) =>
        match e.body
        case None => Failure("Body is required for POST requests")
        case Some(Unparsable) => Failure("invalid JSON")
        case Some(Parsed(doc)) =>
          match ParseRequest(doc)
          case Failure(err) => Failure(err)
          case Success(req) => Success(PostEvent(h, req))
  }

  /** `MCPDeleteAPIGatewayProxyEvent`: method DELETE and valid headers; the body is not read. */
  function ParseDelete(e: Event): (r: Result<DeleteEvent, string>)
    ensures r.Success? <==> e.httpMethod == Some(JStr("DELETE")) && ParseHeaders(e.headers).Success?
    ensures r.Success? ==> r.value.headers == ParseHeaders(e.headers).value
  {
    if e.httpMethod != Some(JStr("DELETE")) then Failure("httpMethod must be DELETE")
    else
      match ParseHeaders(e.headers)
      case Failure(err) => Failure(err)
      case Success(h) => Success(DeleteEvent(h))
  }

  /** The `mcp-session-id` header, whatever the case of its key. */
  function McpSessionId(h: RequestHeaders): Option<string> {
    h.sessionId
  }

  /** Exact equality with the JSON media type: parameters such as `; charset=utf-8` do not match. */
  predicate IsContentTypeJson(h: RequestHeaders) {
    h.contentType == Some(ContentTypeJson)
  }

  /** A session header is read the same under any spelling of its key. */
  lemma SessionHeaderCaseInsensitive(value: string)
    ensures var upper := ParseHeaders(Some([("Content-Type", ContentTypeJson), ("MCP-Session-Id", value)]));
            var lower := ParseHeaders(Some([("content-type", ContentTypeJson), ("mcp-session-id", value)]));
            upper.Success? && lower.Success? && McpSessionId(upper.value) == McpSessionId(lower.value) == Some(value)
  {
    var hs := [("Content-Type", ContentTypeJson), ("MCP-Session-Id", value)];
    var gs := [("content-type", ContentTypeJson), ("mcp-session-id", value)];
    assert Lower("Content-Type") == "content-type";
    assert Lower("MCP-Session-Id") == "mcp-session-id";
    LowerKeysIgnoresCase(hs, gs);
  }

  /** A content type with parameters is not the JSON media type. */
  lemma ContentTypeWithCharsetIsNotJson(h: RequestHeaders)
    requires h.contentType == Some("application/json; charset=utf-8")
    ensures !IsContentTypeJson(h)
  {
  }
}
