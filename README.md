# MCP Lambda handler: a verified model

This project models the hand-written MCP (Model Context Protocol) server of the
AWS Lambda MCP cookbook in Dafny. It is a simplified JSON-RPC 2.0 server: an
API Gateway event arrives, the handler validates it for its HTTP verb, and then
dispatches on the MCP method (`initialize`, notifications, `tools/list`,
`tools/call`, `ping`). It keeps a session table with a 24-hour expiry, and tools
are registered through a decorator that derives a JSON-Schema descriptor from
the function's name, docstring and type hints. The model also covers the
small business-logic helpers: the HLD prompt template and `add_two_numbers`.

Layout, one module per file:

- `wrappers.dfy`, `strings.dfy`, `values.dfy`: `Option`/`Result`, the Python
  string operations the core uses (`split`, `strip`, `capitalize`, `replace`,
  `str(int)`), and decoded JSON values with Python's `str`/`repr`/`type` of them.
- `constants.dfy`: the error codes, HTTP statuses and version strings.
- `models.dfy`: the request envelope and its validation (method normalisation,
  the `jsonrpc` literal, `id` and `params` types, case-insensitive headers, and
  the POST and DELETE event models).
- `session.dfy`: `DynamoDBSessionStore` as a class over a `map` table, with pure
  specification functions per operation; `NoOpSessionStore`.
- `session_data.dfy`: `SessionData`, a view that aliases the dict it wraps.
- `tool_schema.dfy`, `registry.dfy`: the `tool()` decorator's name, description,
  docstring scan and type-hint schema, and the two tool dicts.
- `arguments.dfy`: Enum argument conversion before a tool is called.
- `responses.dfy`: the response builders and the error-code to HTTP-status map.
- `dispatch.dfy`: the request specification (response, new table, new current
  session) per handler; `dispatch_properties.dfy`: the handler's promises as lemmas.
- `mcp_lambda_handler.dfy`: the `MCPLambdaHandler` class, whose methods are
  proved equal to the specification functions.
- `hld.dfy`, `math.dfy`, `tools_math.dfy`, `math_tool.dfy`: the prompt template,
  the two copies of `add_two_numbers`, and the service's `math` tool.

Environment inputs are parameters. `Dispatch.Env` carries the clock
(`time.time()`, a `real`), the id the next `uuid4()` returns, and whether each
DynamoDB call (get, put, delete) succeeds. JSON text is taken already decoded,
and response bodies are datatypes, not serialised text.

## Model

| member | source | states |
|---|---|---|
| Strings.Split | service/mcp_lambda_handler/mcp_lambda_handler.py:142 | `str.split(sep)` yields at least one piece, and no piece contains the separator |
| Strings.JoinSplit | service/mcp_lambda_handler/mcp_lambda_handler.py:142 | joining the pieces of a split with the separator gives the original string back |
| Strings.SplitJoin | service/mcp_lambda_handler/mcp_lambda_handler.py:142 | splitting a join of separator-free pieces gives the pieces back |
| Strings.Strip | service/mcp_lambda_handler/mcp_lambda_handler.py:163 | `str.strip()` is the slice of its input that starts where the leading white space ends; everything before and after the slice is white space, and the slice neither starts nor ends with white space |
| Strings.StripUnchanged | service/mcp_lambda_handler/mcp_lambda_handler.py:163 | a string with no white space at either end is its own `strip()` |
| Strings.SplitFirst | service/mcp_lambda_handler/mcp_lambda_handler.py:170 | `line.split(':', 1)`: a head without ':' and the rest, which joined by ':' give the line back |
| Strings.SplitAtFirst | service/mcp_lambda_handler/mcp_lambda_handler.py:142 | splitting text whose first separator follows a separator-free head gives that head, then the pieces of the rest |
| Strings.Lower | service/mcp_lambda_handler/models.py:68 | `str.lower()` lower-cases every character (ASCII case mapping) and keeps the length |
| Strings.NatToString | service/mcp_lambda_handler/mcp_lambda_handler.py:384 | `str(n)` of a natural number: decimal digits whose value is n, with no leading zero except in "0" |
| Strings.IntToString | service/mcp_lambda_handler/mcp_lambda_handler.py:384 | `str(n)`: a leading '-' exactly when n is negative, then decimal digits whose value is the magnitude of n |
| Strings.Capitalize | service/mcp_lambda_handler/mcp_lambda_handler.py:142 | `str.capitalize()`: first letter upper case, the rest lower case, length kept |
| Strings.ReplaceChar | service/logic/prompts/hld.py:15 | `str.replace` of one character: same length; each target character is replaced and every other character is kept |
| Values.Lookup | service/mcp_lambda_handler/mcp_lambda_handler.py:364-365 | `params.get(key)` finds a value exactly when the key is present, and the value is bound to that key |
| Values.LookupDistinct | service/mcp_lambda_handler/mcp_lambda_handler.py:364-365 | when the keys are distinct, `get` of a member's key returns that member's value |
| Values.Repr | service/mcp_lambda_handler/mcp_lambda_handler.py:379 | `repr()` of a decoded value, as it appears in the Enum error message: None, True/False, decimal integers, quoted strings, bracketed lists and braced dicts |
| Values.PyStr | service/mcp_lambda_handler/mcp_lambda_handler.py:368 | `str()` of the tool name in the "not found" message: a string as itself, a missing name as None, any other value as its repr |
| Values.PyTypeName | service/mcp_lambda_handler/mcp_lambda_handler.py:376 | the type name reported when `arguments` is not a dict and has no `items` |
| Models.MethodFromValue | service/mcp_lambda_handler/models.py:25-32 | `MCPMethod(v)` finds the member whose value is `v`, and fails exactly when no member has that value |
| Models.ValidateMethod | service/mcp_lambda_handler/models.py:43-53 | `None` is rejected; a `notifications/` prefix gives NOTIFICATION; any other string must be a member's value |
| Models.ParseMethodField | service/mcp_lambda_handler/models.py:40-53 | a method is accepted only as a string that validates: an absent field is rejected, null reaches the validator and is rejected, a non-string is rejected |
| Models.MethodValueRoundTrip | service/mcp_lambda_handler/models.py:25-32 | every member's own value validates back to that member |
| Models.ParseId | service/mcp_lambda_handler/models.py:39 | `id` is accepted exactly when it is absent, null, a string or an integer |
| Models.ParseParams | service/mcp_lambda_handler/models.py:41 | `params` is accepted exactly when it is absent, null, an object or an array |
| Models.ParseRequest | service/mcp_lambda_handler/models.py:35-41 | a request validates exactly when it is an object with `jsonrpc` equal to "2.0", a valid method, id and params; the record keeps those values |
| Models.UnknownMethodRejected | service/mcp_lambda_handler/models.py:48-53 | a method string that is neither a notification nor a member's value fails validation |
| Models.LastKeyIndex | service/mcp_lambda_handler/models.py:68 | finds the last header whose lower-cased key equals the given key |
| Models.LowerKeys | service/mcp_lambda_handler/models.py:64-68 | the dict of lower-cased header keys, a later duplicate key winning (its properties are the two lemmas below) |
| Models.LowerKeysKeepsLast | service/mcp_lambda_handler/models.py:63-69 | a lower-cased key is present exactly when some header has it, and its value comes from the last such header |
| Models.LowerKeysIgnoresCase | service/mcp_lambda_handler/models.py:63-69 | headers differing only in the case of their keys give the same lookup dict |
| Models.ParseHeaders | service/mcp_lambda_handler/models.py:56-69 | headers validate exactly when present and a present content-type is non-empty; the fields come from the lower-cased keys |
| Models.ParsePost | service/mcp_lambda_handler/models.py:91-102 | a POST event validates exactly when the verb is POST, the headers validate and the body is present, decodes, and validates as a request |
| Models.ParseDelete | service/mcp_lambda_handler/models.py:106-110 | a DELETE event validates exactly when the verb is DELETE and the headers validate; the body is not read |
| Models.SessionHeaderCaseInsensitive | service/mcp_lambda_handler/models.py:79-82 | `MCP-Session-Id` and `mcp-session-id` give the same session id |
| Models.ContentTypeWithCharsetIsNotJson | service/mcp_lambda_handler/models.py:84-87 | the content-type check is exact equality, so `application/json; charset=utf-8` is not JSON |
| Session.Trunc | service/mcp_lambda_handler/session.py:151 | `int()` of a float truncates toward zero |
| Session.Expired | service/mcp_lambda_handler/session.py:184 | an item is expired when its `expires_at`, 0 if missing, is before now |
| Session.NewRecord | service/mcp_lambda_handler/session.py:150-159 | a new item has `created_at` now, `expires_at` now plus 86400, and the given data or {} |
| Session.NewSessionLifetime | service/mcp_lambda_handler/session.py:151-186 | a new session is live from its creation until its expiry second inclusive, and expired afterwards |
| Session.CreateSpec | service/mcp_lambda_handler/session.py:137-164 | a successful put adds exactly the new id with a new record; a failed put raises and stores nothing |
| Session.CreateAddsOneSession | service/mcp_lambda_handler/session.py:148-161 | with a fresh id, creation grows the table by exactly one session |
| Session.GetSpec | service/mcp_lambda_handler/session.py:166-192 | returns the data (default {}) exactly for a readable, present, unexpired item, unchanged table; an expired item is deleted (if the delete succeeds) and gives None; a missing `expires_at` counts as 0 |
| Session.GetOnlyRemovesItsOwnItem | service/mcp_lambda_handler/session.py:184-186 | a read may remove only the item it reads, and changes no other item |
| Session.GetIsRepeatable | service/mcp_lambda_handler/session.py:188 | reading a live session leaves the table as it was, so a second read returns the same data |
| Session.UpdateSpec | service/mcp_lambda_handler/session.py:194-215 | returns whether the write succeeded; replaces only `data` and keeps `created_at`/`expires_at`; an absent key gets an item with data only (upsert); other items untouched |
| Session.UpdateOfMissingSessionDoesNotRevive | service/mcp_lambda_handler/session.py:184-211 | an update of an absent session creates an item that a read treats as expired |
| Session.UpdateThenGet | service/mcp_lambda_handler/session.py:188-211 | after updating a live session, a read returns the new data |
| Session.DeleteSpec | service/mcp_lambda_handler/session.py:217-233 | returns whether the delete succeeded; on success no item remains under the id; other items untouched; a failure changes nothing |
| Session.DeleteIdempotent | service/mcp_lambda_handler/session.py:228 | deleting twice leaves the same table as deleting once |
| Session.DeleteThenGet | service/mcp_lambda_handler/session.py:180-228 | after a delete, a read of that id returns None |
| Session.DynamoDBSessionStore.CreateSession | service/mcp_lambda_handler/session.py:137-164 | new table and result are those of `CreateSpec`; the returned id was not in the table |
| Session.DynamoDBSessionStore.GetSession | service/mcp_lambda_handler/session.py:166-192 | data and new table are those of `GetSpec`, including the lazy delete of an expired item |
| Session.DynamoDBSessionStore.UpdateSession | service/mcp_lambda_handler/session.py:194-215 | result and new table are those of `UpdateSpec` |
| Session.DynamoDBSessionStore.DeleteSession | service/mcp_lambda_handler/session.py:217-233 | result and new table are those of `DeleteSpec` |
| Session.NoOpSessionStore.CreateSession | service/mcp_lambda_handler/session.py:87-89 | returns the new uuid and stores nothing |
| Session.NoOpSessionStore.GetSession | service/mcp_lambda_handler/session.py:91-93 | returns {} whatever the id |
| Session.NoOpSessionStore.UpdateSession | service/mcp_lambda_handler/session.py:95-97 | returns True |
| Session.NoOpSessionStore.DeleteSession | service/mcp_lambda_handler/session.py:99-101 | returns True |
| SessionDataView.SessionData.Get | service/mcp_lambda_handler/session_data.py:29-31 | returns the stored value when the key is present, otherwise the default; reads only |
| SessionDataView.SessionData.Set | service/mcp_lambda_handler/session_data.py:33-35 | writes the key into the wrapped dict and leaves every other key unchanged |
| SessionDataView.SessionData.Raw | service/mcp_lambda_handler/session_data.py:37-39 | returns the wrapped dict itself |
| SessionDataView.SetThenGet | service/mcp_lambda_handler/session_data.py:29-39 | after `set(k, v)`, `get(k)` gives v, other keys keep their values, and `raw()` shows the write |
| SessionDataView.ViewAliasesDict | service/mcp_lambda_handler/session_data.py:25-35 | a write through the view changes the dict given to the constructor (no copy) |
| ToolSchema.SchemaOfHintOf | service/mcp_lambda_handler/mcp_lambda_handler.py:173-213 | every schema is produced by some hint (the mapping is onto its schema language) |
| ToolSchema.HintOfSchema | service/mcp_lambda_handler/mcp_lambda_handler.py:173-213 | int, float, bool and str become integer, number, boolean and string; an Enum becomes string with its values; Dict and List recurse into their value or item hint; every other hint becomes string. Reading the hint back from the schema gives the hint with those other hints read as str |
| ToolSchema.SameSchemaIff | service/mcp_lambda_handler/mcp_lambda_handler.py:173-213 | two hints get the same schema if and only if they agree once unknown hints are read as str |
| ToolSchema.GetTypeSchema | service/mcp_lambda_handler/mcp_lambda_handler.py:173-213 | the schema of a hint (its properties are `HintOfSchema` and `SameSchemaIff`) |
| ToolSchema.SplitCounts | service/mcp_lambda_handler/mcp_lambda_handler.py:142 | splitting on '_' gives one more piece than underscores, and the pieces hold every other character |
| ToolSchema.ToolNameShape | service/mcp_lambda_handler/mcp_lambda_handler.py:141-142 | a tool name contains no '_' and is the function name's length minus its underscores |
| ToolSchema.ToolNameWithoutUnderscore | service/mcp_lambda_handler/mcp_lambda_handler.py:141-142 | a function name without '_' is its own tool name |
| ToolSchema.ToolNameOfWords | service/mcp_lambda_handler/mcp_lambda_handler.py:141-142 | for underscore-joined words, the first word is kept as written and every later word is capitalised |
| ToolSchema.ToolName | service/mcp_lambda_handler/mcp_lambda_handler.py:141-142 | the first `_`-separated word followed by every later word capitalised (its properties are the three lemmas above) |
| ToolSchema.FirstParagraph | service/mcp_lambda_handler/mcp_lambda_handler.py:145-146 | the description is the prefix of the docstring up to its first "\n\n", or all of it |
| ToolSchema.FirstParagraphWhole | service/mcp_lambda_handler/mcp_lambda_handler.py:145-146 | a docstring without "\n\n" is all description |
| ToolSchema.KindOf | service/mcp_lambda_handler/mcp_lambda_handler.py:163-171 | a line is tested as an `Args:` header, then as a blank or `Returns:` line, then for a colon, whose stripped sides name and describe an argument |
| ToolSchema.ScanArgs | service/mcp_lambda_handler/mcp_lambda_handler.py:160-171 | the scan over the lines' kinds: a header opens the section, lines outside it are skipped, an end line stops the scan, and a line with a colon inside it records a description |
| ToolSchema.ArgDescriptions | service/mcp_lambda_handler/mcp_lambda_handler.py:157-171 | the scan from outside the section over the docstring's lines; no lines for an empty docstring |
| ToolSchema.ScanArgsFromLines | service/mcp_lambda_handler/mcp_lambda_handler.py:160-171 | every description in the result was already there or comes from a line the scan records: a line with a colon read inside the `Args:` section, before its end |
| ToolSchema.ScanArgsKeeps | service/mcp_lambda_handler/mcp_lambda_handler.py:166-171 | a description stays in the result unless a later recorded line names the same argument |
| ToolSchema.ScanArgsRecords | service/mcp_lambda_handler/mcp_lambda_handler.py:166-171 | every recorded line puts its description in the result, unless a later recorded line names the same argument |
| ToolSchema.ScanArgsStops | service/mcp_lambda_handler/mcp_lambda_handler.py:167-168 | once a blank or `Returns:` line ends the section, the lines after it change nothing |
| ToolSchema.ScanArgsNeedsHeader | service/mcp_lambda_handler/mcp_lambda_handler.py:163-166 | no description is recorded before an `Args:` line |
| ToolSchema.ArgDescriptionsFromDoc | service/mcp_lambda_handler/mcp_lambda_handler.py:157-171 | every argument description is the stripped text after the first colon of a docstring line read inside the `Args:` section, whose stripped text before the colon is the argument's name |
| ToolSchema.ArgDescriptionsComplete | service/mcp_lambda_handler/mcp_lambda_handler.py:157-171 | every line with a colon inside the `Args:` section describes its argument; when several name the same argument the last one wins |
| ToolSchema.ArgDescriptionsWithoutHeader | service/mcp_lambda_handler/mcp_lambda_handler.py:158-171 | a docstring without an `Args:` line describes no argument |
| ToolSchema.OneLineDocstring | service/mcp_lambda_handler/mcp_lambda_handler.py:145-171 | a one-line docstring is all description and describes no argument |
| ToolSchema.ParseArgDescriptions | service/mcp_lambda_handler/mcp_lambda_handler.py:158-171 | the scanning loop with its `in_args` flag computes the specified argument descriptions |
| ToolSchema.Params | service/mcp_lambda_handler/mcp_lambda_handler.py:149-151 | the parameters are hints from the list, none of them `return`, and every hint but `return` is kept |
| ToolSchema.ParamsConcat | service/mcp_lambda_handler/mcp_lambda_handler.py:149-151 | dropping `return` acts on each hint alone: the parameters of two runs of hints are the parameters of each, in order |
| ToolSchema.ParamsSingle | service/mcp_lambda_handler/mcp_lambda_handler.py:149-151 | a single hint is kept exactly when it is not named `return` |
| ToolSchema.BuildInputSchema | service/mcp_lambda_handler/mcp_lambda_handler.py:215-223 | one property and one `required` entry per parameter, in hint order; a description is attached only to the property with exactly that name |
| ToolSchema.InputSchemaOf | service/mcp_lambda_handler/mcp_lambda_handler.py:214-230 | one property and one `required` entry per parameter, in order, each property built from its hint and matching description |
| ToolSchema.Descriptor | service/mcp_lambda_handler/mcp_lambda_handler.py:225-230 | the descriptor's name is the camelCase tool name, its description the first paragraph, its input schema built from the non-return hints |
| ToolSchema.BuildDescriptor | service/mcp_lambda_handler/mcp_lambda_handler.py:141-230 | the decorator's steps (name, first paragraph, scanned descriptions, schema loop) build exactly the specified descriptor |
| Registry.Register | service/mcp_lambda_handler/mcp_lambda_handler.py:232-234 | both dicts get the same key; the tool's descriptor and function are stored; other tools untouched; a new name goes last and a re-registered one keeps its place |
| Registry.ListTools | service/mcp_lambda_handler/mcp_lambda_handler.py:354 | the listing holds every descriptor in key order |
| Registry.RegisterThenList | service/mcp_lambda_handler/mcp_lambda_handler.py:232-354 | registering a new tool appends its descriptor to the listing; re-registering replaces it in place |
| Arguments.PyEquals | service/mcp_lambda_handler/mcp_lambda_handler.py:379 | Python `==` as `EnumClass(v)` compares: True == 1 and False == 0, lists element by element, dicts by key whatever the order (its properties are the two lemmas below) |
| Arguments.PyEqualsReflexive | service/mcp_lambda_handler/mcp_lambda_handler.py:379 | every value whose dicts have distinct keys (every Python value) equals itself |
| Arguments.NestedEquality | service/mcp_lambda_handler/mcp_lambda_handler.py:379 | `[True] == [1]`; dicts with the same items in another order are equal; lists of different lengths are not; "1" is not 1 |
| Arguments.FindValue | service/mcp_lambda_handler/mcp_lambda_handler.py:379 | `EnumClass(v)` finds the first member whose value equals v under Python `==`, or fails when none does |
| Arguments.HintFor | service/mcp_lambda_handler/mcp_lambda_handler.py:377 | `hints.get(name)` finds the hint of that name, if any |
| Arguments.ConvertValue | service/mcp_lambda_handler/mcp_lambda_handler.py:376-381 | a non-Enum hint passes the value through; an Enum hint converts exactly when some member has that value, else it raises "<repr> is not a valid <Enum>" |
| Arguments.MemberValueConverts | service/mcp_lambda_handler/mcp_lambda_handler.py:376-379 | passing a member's own value converts to a member of that Enum: the first one whose value equals it |
| Arguments.ConvertArgs | service/mcp_lambda_handler/mcp_lambda_handler.py:372-381 | the arguments converted in order, the first failing conversion ending it (its properties are the lemmas below) |
| Arguments.ConvertFailureSticks | service/mcp_lambda_handler/mcp_lambda_handler.py:376-381 | once an argument fails to convert, the conversion fails with that error |
| Arguments.ConvertArgsSucceeds | service/mcp_lambda_handler/mcp_lambda_handler.py:376-381 | conversion succeeds exactly when every argument converts |
| Arguments.ConvertArgsContents | service/mcp_lambda_handler/mcp_lambda_handler.py:372-381 | the converted arguments have exactly the supplied names, each with its own converted value |
| Arguments.PassThroughArguments | service/mcp_lambda_handler/mcp_lambda_handler.py:380-381 | an argument that is not Enum-hinted, including one no parameter declares, reaches the tool unchanged |
| Arguments.ConvertArguments | service/mcp_lambda_handler/mcp_lambda_handler.py:372-381 | the conversion loop computes the specified conversion |
| Responses.ErrorCodeToHttpStatus | service/mcp_lambda_handler/mcp_lambda_handler.py:268-277 | 400 exactly for -32700, -32600 and -32602; 404 exactly for -32601; 500 for every other code |
| Responses.UnmappedCodesAreServerErrors | service/mcp_lambda_handler/mcp_lambda_handler.py:268-277 | -32603 and every server-range code such as -32000 map to 500 |
| Responses.StandardHeaders | service/mcp_lambda_handler/mcp_lambda_handler.py:258-260 | JSON content type and MCP version always; `MCP-Session-Id` exactly when a non-empty session id is given |
| Responses.CreateErrorResponse | service/mcp_lambda_handler/mcp_lambda_handler.py:244-266 | a non-zero explicit status overrides the map; the body is a JSON-RPC error with the id, code, message and error content; standard headers |
| Responses.CreateSuccessResponse | service/mcp_lambda_handler/mcp_lambda_handler.py:279-287 | always 200, standard headers, a JSON-RPC result with the id |
| Responses.BuildersSetStandardHeaders | service/mcp_lambda_handler/mcp_lambda_handler.py:258-283 | every response either builder makes carries `Content-Type: application/json` and `MCP-Version: 0.6` |
| Dispatch.HandleHttpDelete | service/mcp_lambda_handler/mcp_lambda_handler.py:402-410 | with a session id: delete it, 204; without one: 404; neither has headers or a body |
| Dispatch.HandleInitialize | service/mcp_lambda_handler/mcp_lambda_handler.py:337-349 | a stored new session becomes current and is returned with the protocol version, server info and tool capabilities; a failed put gives an internal error and changes nothing |
| Dispatch.HandleToolsList | service/mcp_lambda_handler/mcp_lambda_handler.py:351-354 | answers every descriptor in registration order |
| Dispatch.HandlePing | service/mcp_lambda_handler/mcp_lambda_handler.py:397-400 | answers an empty result |
| Dispatch.RunTool | service/mcp_lambda_handler/mcp_lambda_handler.py:370-395 | non-object arguments, a failed conversion or a raising tool give -32603 "Error executing tool: <msg>" with the message as error content; a returned value gives one text item |
| Dispatch.HandleToolsCall | service/mcp_lambda_handler/mcp_lambda_handler.py:356-395 | checks in order: params present, session valid, params an object, name hashable, name registered; then the tool runs |
| Dispatch.HandleHttpPost | service/mcp_lambda_handler/mcp_lambda_handler.py:412-446 | content type, then notification, then session presence, then the method |
| Dispatch.HandleRequest | service/mcp_lambda_handler/mcp_lambda_handler.py:289-335 | a DELETE or POST event is validated for its verb and handled; any other verb is rejected |
| DispatchProperties.UnsupportedVerbRejected | service/mcp_lambda_handler/mcp_lambda_handler.py:301-308 | a verb other than POST and DELETE gets -32600 "Unsupported HTTP method: <verb>" (400) and changes nothing |
| DispatchProperties.InvalidEventIsParseError | service/mcp_lambda_handler/mcp_lambda_handler.py:299-311 | an event that does not validate gets -32600 "Parse error" (400) with null id, no session header, and no change |
| DispatchProperties.UnknownMethodIsParseError | service/mcp_lambda_handler/mcp_lambda_handler.py:305-311 | an unknown method name gets "Parse error", never "Method not found" |
| DispatchProperties.DeleteOutcome | service/mcp_lambda_handler/mcp_lambda_handler.py:402-410 | DELETE with a session id deletes it (204); without one 404; no headers, no body |
| DispatchProperties.DeleteTwice | service/mcp_lambda_handler/mcp_lambda_handler.py:402-410 | a repeated DELETE gives the same table and the same response |
| DispatchProperties.WrongContentTypeRejected | service/mcp_lambda_handler/mcp_lambda_handler.py:422-423 | a content type other than exactly application/json gets -32700 "Unsupported Media Type" (400), whatever the method |
| DispatchProperties.NotificationAccepted | service/mcp_lambda_handler/mcp_lambda_handler.py:426-432 | a notification gets 202 with an empty body and no session header, with or without a session |
| DispatchProperties.SessionRequired | service/mcp_lambda_handler/mcp_lambda_handler.py:433-439 | without a session id, any method but initialize gets -32600 "Session required" (400) |
| DispatchProperties.InitializeMintsSession | service/mcp_lambda_handler/mcp_lambda_handler.py:337-349 | initialize stores exactly one new session (24-hour expiry), even when a session was sent, returns it in `MCP-Session-Id`, and makes it current |
| DispatchProperties.InitializeStoreFailure | service/mcp_lambda_handler/mcp_lambda_handler.py:328-341 | a failing put gives -32603 "Internal server error" (500) and stores nothing |
| DispatchProperties.ListAndPingLeaveStoreAlone | service/mcp_lambda_handler/mcp_lambda_handler.py:351-400 | tools/list returns every descriptor and ping returns {}; neither touches the store |
| DispatchProperties.ToolsCallMissingParams | service/mcp_lambda_handler/mcp_lambda_handler.py:358-359 | empty or absent params get -32602 (400) before the session is read |
| DispatchProperties.ToolsCallInvalidSession | service/mcp_lambda_handler/mcp_lambda_handler.py:361-454 | a session the store does not return gets -32000 "Invalid or expired session" with 404 and no session header |
| DispatchProperties.ToolsCallUnknownTool | service/mcp_lambda_handler/mcp_lambda_handler.py:364-368 | an unregistered name gets -32601 "Tool '<name>' not found" (404) |
| DispatchProperties.ToolsCallInternalError | service/mcp_lambda_handler/mcp_lambda_handler.py:326-368 | on a live session, params that are a non-empty list, or an object whose `name` is a list or dict, give 500 "Internal server error" with the id and the session header, and change nothing |
| DispatchProperties.ToolsCallOnLiveSession | service/mcp_lambda_handler/mcp_lambda_handler.py:356-395 | with params, a live session never gets the session error, and the table is left alone |
| DispatchProperties.InitializedSessionStored | service/mcp_lambda_handler/session.py:150-186 | the session `initialize` stores is live from its creation until its expiry |
| DispatchProperties.InitializedSessionIsLive | service/mcp_lambda_handler/session.py:150-186 | a `tools/call` naming the session `initialize` created, before it expires, never gets "Invalid or expired session" and leaves the table unchanged |
| DispatchProperties.RequestViaPost | service/mcp_lambda_handler/mcp_lambda_handler.py:304-325 | a validated POST goes to the POST pipeline with its session header made current |
| DispatchProperties.ToolsCallReturns | service/mcp_lambda_handler/mcp_lambda_handler.py:370-385 | a registered tool that returns gives 200 with exactly one text item holding its result |
| DispatchProperties.RunToolResponseShape | service/mcp_lambda_handler/mcp_lambda_handler.py:383-395 | a tool call answers a JSON-RPC body with consistent status and standard headers, and an error only with -32603 |
| DispatchProperties.ToolsCallResponseShape | service/mcp_lambda_handler/mcp_lambda_handler.py:356-395 | every tools/call response is well formed, and the table changes at most by the session read |
| DispatchProperties.PostOutcomeShape | service/mcp_lambda_handler/mcp_lambda_handler.py:412-446 | POST responses are well formed; -32601 only from tools/call; only initialize or the tools/call session read change the table |
| DispatchProperties.ResponsesWellFormed | service/mcp_lambda_handler/mcp_lambda_handler.py:244-446 | every response's status agrees with its body, and every response with a body carries the standard headers |
| DispatchProperties.MethodNotFoundOnlyFromToolsCall | service/mcp_lambda_handler/mcp_lambda_handler.py:442-446 | -32601 comes only from tools/call, so the "Method not found" fallback is unreachable |
| DispatchProperties.TableFrame | service/mcp_lambda_handler/mcp_lambda_handler.py:341-406 | only the new initialize id is added; sessions are removed only by DELETE or by the expiry check of tools/call; nothing else changes |
| DispatchProperties.CurrentSessionAfterRequest | service/mcp_lambda_handler/mcp_lambda_handler.py:293-342 | after a request the current session is none, the non-empty session header of a validated event, or the id initialize created |
| Handler.McpLambdaHandler.constructor | service/mcp_lambda_handler/mcp_lambda_handler.py:70-83 | keeps name, version and store; both tool dicts empty; no current session |
| Handler.McpLambdaHandler.Tool | service/mcp_lambda_handler/mcp_lambda_handler.py:139-240 | the decorator registers the derived descriptor and the function under the tool name, and returns a wrapper equal to the function |
| Handler.McpLambdaHandler.HandleHttpDelete | service/mcp_lambda_handler/mcp_lambda_handler.py:402-410 | response and new table are those of `Dispatch.HandleHttpDelete` |
| Handler.McpLambdaHandler.HandleInitialize | service/mcp_lambda_handler/mcp_lambda_handler.py:337-349 | response, table and current session are those of `Dispatch.HandleInitialize` |
| Handler.McpLambdaHandler.HandleToolsList | service/mcp_lambda_handler/mcp_lambda_handler.py:351-354 | the response lists the registered descriptors in order |
| Handler.McpLambdaHandler.HandlePing | service/mcp_lambda_handler/mcp_lambda_handler.py:397-400 | the response is an empty result |
| Handler.McpLambdaHandler.ValidateSession | service/mcp_lambda_handler/mcp_lambda_handler.py:448-454 | valid exactly when the store returns data; the table is as the read leaves it |
| Handler.McpLambdaHandler.CallTool | service/mcp_lambda_handler/mcp_lambda_handler.py:370-395 | conversion loop plus call give the response `Dispatch.RunTool` specifies |
| Handler.McpLambdaHandler.HandleToolsCall | service/mcp_lambda_handler/mcp_lambda_handler.py:356-395 | response and new table are those of `Dispatch.HandleToolsCall` |
| Handler.McpLambdaHandler.HandleHttpPost | service/mcp_lambda_handler/mcp_lambda_handler.py:412-446 | response, table and current session are those of `Dispatch.HandleHttpPost` |
| Handler.McpLambdaHandler.HandleRequest | service/mcp_lambda_handler/mcp_lambda_handler.py:289-335 | response, table and current session are those of `Dispatch.HandleRequest`; the tools are unchanged |
| Handler.McpLambdaHandler.GetSession | service/mcp_lambda_handler/mcp_lambda_handler.py:85-96 | a fresh view over the live current session's data, or None without a current session or a live one |
| Handler.McpLambdaHandler.SetSession | service/mcp_lambda_handler/mcp_lambda_handler.py:98-111 | False without a current session; otherwise the store's update of the current session |
| Handler.McpLambdaHandler.UpdateSession | service/mcp_lambda_handler/mcp_lambda_handler.py:113-131 | False without a live current session; an updater that raises propagates its error and nothing is written; otherwise the updated data is written back to the current session and the write's result returned |
| Hld.HldPrompt | service/logic/prompts/hld.py:1-15 | same length as the filled template, no newline, starts with the opening sentence, requirements kept with their newlines as '.', ends with '.' |
| Hld.ReplaceShape | service/logic/prompts/hld.py:15 | replacing newlines keeps a newline-free head and turns the final newline into '.' |
| Hld.HldPromptSections | service/logic/prompts/hld.py:3-12 | every listed section name appears in the prompt, whatever the requirements |
| Hld.HldPromptQuotesRequirements | service/logic/prompts/hld.py:2 | requirements without a newline appear verbatim right after the head |
| LogicMath.AddTwoNumbers | service/logic/math.py:4-8 | the result is the unbounded sum: subtracting either operand gives the other |
| LogicMath.AddZeroIdentity | service/logic/math.py:8 | adding zero on either side gives the other operand |
| LogicMath.AddSymmetric | service/logic/math.py:8 | the result is symmetric in its operands |
| ToolsMath.AddTwoNumbers | service/logic/tools/math.py:4-7 | the result is the unbounded sum |
| ToolsMath.SameAsLogicLayer | service/logic/tools/math.py:4-7 | the two copies compute the same function |
| ToolsMath.TestedValues | tests/unit/test_math_tool_logic.py:4-24 | 2+3=5, (-2)+(-3)=-5, (-2)+3=1, 2+(-3)=-1, zero on either side, 10^6+10^6=2*10^6 |
| MathToolExample.IntArg | service/handlers/mcp.py:16-17 | `isinstance(v, int)` accepts exactly decoded integers and booleans |
| MathToolExample.RunMath | service/handlers/mcp.py:14-21 | the tool body: exactly `a` and `b`, both integers, give the text of their sum; otherwise the tool raises |
| MathToolExample.MathToolAdds | service/handlers/mcp.py:13-21 | two integers give the decimal text of their sum |
| MathToolExample.MathToolRejectsNonIntegers | service/handlers/mcp.py:16-17 | a non-integer argument raises 'Invalid input: a and b must be integers' |
| MathToolExample.MathDocstring | service/handlers/mcp.py:15 | the one-line docstring is the description and describes no argument |
| MathToolExample.MathInputSchema | service/handlers/mcp.py:14 | `a` and `b` are required integers and the return hint is dropped |
| MathToolExample.MathDescriptor | tests/integration/test_mcp_server.py:84-96 | the math tool is listed as `math`, "Add two numbers together", with integer `a` and `b` |
| MathToolExample.SevenThroughToolsCall | tests/integration/test_mcp_tools.py:25-37 | tools/call of math with 3 and 4 answers exactly one text item "7" |
| MathToolExample.MathToolsRegistered | service/handlers/mcp.py:13-14 | the registry holds `math` under its own name |
| MathToolExample.SevenFromArguments | service/handlers/mcp.py:14-21 | arguments 3 and 4 convert as given and the tool returns "7" |
| MathToolExample.SevenAfterInitialize | tests/integration/test_mcp_tools.py:9-37 | on the session `initialize` created, before it expires, tools/call of math with 3 and 4 answers exactly one text item "7" with the session header, and the table is unchanged |

## Left out

- JSON text: bodies are taken as decoded values or as text that does not decode, and responses are datatypes. Serialisation (`model_dump_json`) is not modelled.
- Arguments.HintFor: the hints are a list of distinct names, as `get_type_hints` returns a dict; if a name were repeated, the first would win.
- Values.Lookup: a decoded object is assumed to have distinct keys. Python's decoder keeps the last of duplicate keys; the model finds the first.
- Arguments.PyEqualsReflexive: stated for values whose objects have distinct keys, as every Python dict does; a member list that repeats a key has no Python counterpart.
- Floating-point JSON numbers are not modelled, so pydantic's lax coercion of a float `id` is not modelled either.
- Models.ParseId: a boolean `id` is rejected, where pydantic's lax mode would coerce it to the integer 0 or 1 for the `int` branch of the union.
- Models.ParseHeaders: header values are strings. Non-string keys (kept as-is by the lower-casing) and non-string values are not modelled.
- Strings.Capitalize, Strings.Lower: only ASCII letters change case. Unicode case mapping is not modelled.
- Values.Repr: string escapes inside `repr()` are not modelled, so `'` and `\` in a value's repr are shown as-is.
- Session.NewRecord: `created_at` and `expires_at` come from one clock reading; the source reads the clock twice.
- The DynamoDB client, its lazy `dynamodb`/`table` properties and the table-name getter are replaced by the `table` field and per-call success flags. `uuid.uuid4()` is replaced by a fresh id, required to be absent from the table.
- Handler.McpLambdaHandler: the handler is modelled over `DynamoDBSessionStore` (the store the service wires in). `NoOpSessionStore` is modelled as its own class, and a handler over it is not modelled.
- Handler.McpLambdaHandler.HandleRequest: the second "Unsupported HTTP method" branch is unreachable, because a validated event's verb is POST or DELETE, and is not modelled.
- Handler.McpLambdaHandler.Tool: runtime reflection is not modelled. `inspect.getdoc` and `get_type_hints` are replaced by the callable's docstring and ordered hints; `functools.wraps` metadata is not modelled.
- Tool functions are abstract: `run` maps the converted arguments to a returned value's `str()` or a raised exception's message.
- MathToolExample.RunMath: Python's TypeError for missing or unexpected keyword arguments is modelled with a fixed message, not Python's wording.
- Logging, metrics and tracing are side effects with no bearing on results, and are not modelled.
- The Lambda entry point, decorators and authentication placeholder (`service/handlers/mcp.py:24-30`) are not modelled; the infrastructure code under `cdk/` is not part of this model.
- The argument validator `_validate_tool_args` and the error messages asserted by the integration tests are not modelled. They are not implemented by the handler source modelled here, which only converts Enum arguments.
