/**
  Protocol constants of the handler: the JSON media type, the MCP versions,
  and the JSON-RPC 2.0 error codes (section 5.1 of the JSON-RPC 2.0
  specification), with -32000 from the range -32000..-32099 that JSON-RPC
  reserves for implementation-defined server errors.
 */
module Constants {

  const ContentTypeJson: string := "application/json"

  const McpVersion: string := "0.6"
  const McpProtocolVersion: string := "2024-11-05"

  const ErrorParse: int := -32700
  const ErrorInvalidRequest: int := -32600
  const ErrorMethodNotFound: int := -32601
  const ErrorInvalidParams: int := -32602
  const ErrorInternal: int := -32603

  const ErrorRequestCancelled: int := -32800
  const ErrorContentTooLarge: int := -32801

  const ErrorServer: int := -32000

  /** The JSON-RPC range reserved for implementation-defined server errors. */
  predicate IsServerErrorCode(code: int) {
    -32099 <= code <= -32000
  }

  /** HTTP status codes the handler produces. */
  const HttpOk: int := 200
  const HttpAccepted: int := 202
  const HttpNoContent: int := 204
  const HttpBadRequest: int := 400
  const HttpNotFound: int := 404
  const HttpInternalServerError: int := 500
}
