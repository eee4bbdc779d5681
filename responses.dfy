/**
  The HTTP responses the handler returns: a status code, the headers, and a
  body that is absent, empty text, or a JSON-RPC response (kept as a value,
  not serialised).
 */
module Responses {
  import opened Wrappers
  import opened Constants
  import opened Models
  import opened ToolSchema

  /** `Content-Type`, `MCP-Version` and, when there is one, `MCP-Session-Id`. */
  datatype ResponseHeaders = ResponseHeaders(contentType: string, mcpVersion: string, sessionId: Option<string>)

  datatype ErrorObject = ErrorObject(code: int, message: string)

  /** The `result` member of a successful JSON-RPC response. */
  datatype ResultValue =
    | InitializeResult(protocolVersion: string, serverName: string, serverVersion: string, toolsList: bool, toolsCall: bool)
    | ToolsResult(tools: seq<ToolDescriptor>)
    | ContentResult(texts: seq<string>)        // `{"content": [{"type": "text", "text": ...}, ...]}`
    | EmptyResult                               // `{}`

  /** A JSON-RPC 2.0 response; `errorContent` holds the texts of `[{"type": "text", "text": ...}]` when present. */
  datatype RpcResponse =
    | RpcResult(id: Option<RequestId>, result: ResultValue)
    | RpcError(id: Option<RequestId>, error: ErrorObject, errorContent: Option<seq<string>>)

  datatype Body = NoBody | EmptyText | JsonBody(rpc: RpcResponse)

  /** `None` headers: the response dict has no `headers` key. */
  datatype Response = Response(statusCode: int, headers: Option<ResponseHeaders>, body: Body)

  /** Python truthiness of an optional string: present and non-empty. */
  predicate Truthy(s: Option<string>) {
    s.Some? && s.value != ""
  }

  /** `_error_code_to_http_status`. */
  function ErrorCodeToHttpStatus(code: int): (status: int)
    ensures status == HttpBadRequest <==> code in {ErrorParse, ErrorInvalidRequest, ErrorInvalidParams}
    ensures status == HttpNotFound <==> code == ErrorMethodNotFound
    ensures status == HttpInternalServerError <==> code !in {ErrorParse, ErrorInvalidRequest, ErrorInvalidParams, ErrorMethodNotFound}
  {
    if code == ErrorParse || code == ErrorInvalidRequest || code == ErrorInvalidParams then HttpBadRequest
    else if code == ErrorMethodNotFound then HttpNotFound
    else HttpInternalServerError
  }

  /** Codes outside the map, such as the server error -32000, fall back to 500. */
  lemma UnmappedCodesAreServerErrors(code: int)
    requires IsServerErrorCode(code) || code == ErrorInternal
    ensures ErrorCodeToHttpStatus(code) == HttpInternalServerError
  {
  }

  /** The headers of every JSON-RPC response. */
  function StandardHeaders(sessionId: Option<string>): (h: ResponseHeaders)
    ensures h.contentType == ContentTypeJson && h.mcpVersion == McpVersion
    ensures h.sessionId.Some? <==> Truthy(sessionId)
    ensures h.sessionId.Some? ==> h.sessionId == sessionId
  {
    ResponseHeaders(ContentTypeJson, McpVersion, if Truthy(sessionId) then sessionId else None)
  }

  /**
    `_create_error_response`.  An explicit `statusCode` overrides the map unless
    it is falsy (`None` or 0).
   */
  function CreateErrorResponse(code: int, message: string, id: Option<RequestId>, errorContent: Option<seq<string>>,
                               sessionId: Option<string>, statusCode: Option<int>): (r: Response)
    ensures statusCode.Some? && statusCode.value != 0 ==> r.statusCode == statusCode.value
    ensures statusCode.None? || statusCode.value == 0 ==> r.statusCode == ErrorCodeToHttpStatus(code)
    ensures r.headers == Some(StandardHeaders(sessionId))
    ensures r.body.JsonBody? && r.body.rpc.RpcError? && r.body.rpc.id == id
    ensures r.body.rpc.error == ErrorObject(code, message) && r.body.rpc.errorContent == errorContent
  {
    var status := if statusCode.Some? && statusCode.value != 0 then statusCode.value else ErrorCodeToHttpStatus(code);
    Response(status, Some(StandardHeaders(sessionId)), JsonBody(RpcError(id, ErrorObject(code, message), errorContent)))
  }

  /** `_create_success_response`: always 200. */
  function CreateSuccessResponse(result: ResultValue, id: Option<RequestId>, sessionId: Option<string>): (r: Response)
    ensures r.statusCode == HttpOk
    ensures r.headers == Some(StandardHeaders(sessionId))
    ensures r.body == JsonBody(RpcResult(id, result))
  {
    Response(HttpOk, Some(StandardHeaders(sessionId)), JsonBody(RpcResult(id, result)))
  }

  /** Whether a response carries a JSON-RPC body. */
  predicate IsRpcResponse(r: Response) {
    r.body.JsonBody?
  }

  /** Every JSON-RPC response built by the two builders carries the JSON content type and the MCP version. */
  lemma BuildersSetStandardHeaders(code: int, message: string, result: ResultValue, id: Option<RequestId>,
                                   errorContent: Option<seq<string>>, sessionId: Option<string>, statusCode: Option<int>)
    ensures var e := CreateErrorResponse(code, message, id, errorContent, sessionId, statusCode);
            e.headers.Some? && e.headers.value.contentType == ContentTypeJson && e.headers.value.mcpVersion == McpVersion
    ensures var s := CreateSuccessResponse(result, id, sessionId);
            s.headers.Some? && s.headers.value.contentType == ContentTypeJson && s.headers.value.mcpVersion == McpVersion
  {
  }
}
