# mcp-yapi-server core, modelled in Dafny

The server answers tool calls from an assistant by querying a YApi
documentation service and reshaping its answers. This project models its
core, all of it in `src/index.ts`:

- **InterfaceFormatter** (`formatter.dfy`, module `Formatter`). It turns one
  loosely typed interface record into a result of fixed shape. The result
  holds the request parameters (query entries, then path entries), the
  headers, the request body and the response information. Defaults apply
  wherever a field is missing or is an empty string.
  `extractRequestParams` and `extractHeaders` fill arrays with
  `forEach`/`push`. They are methods with loops (one helper method per
  `forEach` block of `extractRequestParams`), proved equal to the
  specification functions `RequestParams` and `RequestHeaders`.
  `extractRequestBody` and `extractResponseInfo` add fields to a fresh
  object under conditions. They are methods proved equal to
  `RequestBodyOf` and `ResponseInfoOf`. `Format` is the whole result as a
  value.
- **YApiUrlParser.parseInterfaceUrl** (`url_parser.dfy`, module
  `UrlParser`). It searches the path for the unanchored pattern
  `/project/(\d+)/interface/api/(\d+)`. The leftmost occurrence wins and
  the digit runs are greedy. The base URL is `protocol + "//" + host`.
- **YApiClient** (`client.dfy`, module `Client`). This covers token
  resolution, the choice of endpoint and parameters, the envelope check,
  the `data || []` fallback and `handleError`. The class `YApiClient` holds
  the mutable `baseUrl` and `token`.
- **The lookup-by-URL handler** (`handlers.dfy`, module `Handlers`). It
  points the client at the server named in the URL for one fetch, then
  restores the previous base URL on every path.

Shared pieces: `wrappers.dfy` defines `Option` and `Result`. `json.dfy`
defines JSON values, JavaScript truthiness and the result of decoding
with fallback, `Parsed(value) | Raw(text)`.

Modelling conventions:
- An absent field (`undefined`) is `None`.
- `x || d` on a string is "the string if it is present and non-empty,
  else `d`" (`OrElse`). On a JSON value it uses JavaScript truthiness
  (`Present`).
- The array fields `req_query`, `req_params` and `req_headers` are
  `None` when they are absent or are not arrays.
- `JSON.parse` and `JSON.stringify` are parameters (`decode`,
  `stringify`). The HTTP GET is a parameter `remote`. It maps a request
  (base URL, endpoint path, query parameters in the order they are set)
  to an envelope `{errcode, errmsg, data}` or to a transport failure.
  Because the request carries the client's current base URL, the
  handler's temporary override can be observed.
- The URL arrives already split into protocol, host and pathname, or as
  `None` when the platform's URL parser rejects it.
- Record field names are written in camelCase (`req_body_other` becomes
  `reqBodyOther`, `_id` becomes `id`, `method` becomes `httpMethod`).

Behaviour the model keeps from the code that a reader might not expect:
- The list operation chooses the category-scoped endpoint when `catId` is
  truthy, so an empty category id counts as absent. It does not test mere
  presence.
- Request and response schemas are decoded only when their text is
  non-empty, not merely when it is present.
- The response `type` defaults to `"json"`, but an example is produced
  only when `res_body_type` is literally `"json"`.
- When the service accepts a detail request but sends no `data`, the
  formatter's first step, the request-parameter extraction, throws a
  TypeError while reading `req_query` from `undefined`. The handler reports
  it as the error reply
  `错误: Cannot read properties of undefined (reading 'req_query')`.

## Model

| member | source | states |
|---|---|---|
| `Formatter.RequestParams` | src/index.ts:210-240 | params has one entry per query entry, then one per path entry, each list in source order; the length is the sum of the two lengths (0 for an absent array) |
| `Formatter.RequestHeaders` | src/index.ts:245-261 | headers map `req_headers` one to one and in order; the list is empty when the field is absent or not an array |
| `Formatter.QueryParam` | src/index.ts:216-222 | a query entry keeps its name, is located in the query, is required iff its flag is the string "1", and takes its description and example when non-empty, else "" |
| `Formatter.PathParam` | src/index.ts:229-235 | a path entry keeps its name, is located in the path, is always required, and takes its description and example when non-empty, else "" |
| `Formatter.HeaderOf` | src/index.ts:250-256 | a header keeps its name, is required iff its flag is "1", and takes its value, description and example when non-empty, else "" |
| `JsonValues.OrElse` | src/index.ts:190-191 | `s || d` on a string: the string when it is present and non-empty, else the fallback |
| `Formatter.ExtractRequestParams` | src/index.ts:210-240 | the query block, then the path block, build exactly `RequestParams` |
| `Formatter.PushQueryParams` | src/index.ts:214-224 | the `req_query` forEach/push loop appends one query descriptor per entry, in order, and leaves what was already pushed unchanged |
| `Formatter.PushPathParams` | src/index.ts:227-237 | the `req_params` forEach/push loop appends one path descriptor per entry, in order, after what was already pushed |
| `Formatter.ExtractHeaders` | src/index.ts:245-261 | the forEach/push loop builds exactly `RequestHeaders` |
| `Formatter.ExtractRequestBody` | src/index.ts:266-286 | the conditional field assignments yield exactly `RequestBodyOf` (its shape is stated by `RequestBodyShape`) |
| `Formatter.ExtractResponseInfo` | src/index.ts:291-315 | the conditional field assignments yield exactly `ResponseInfoOf` (its shape is stated by `ResponseShape`) |
| `Formatter.FormatInterfaceDetails` | src/index.ts:181-205 | assembling the four extractions gives `Format`; there is no precondition, so formatting never fails |
| `Formatter.FormatSparseRecord` | src/index.ts:185-204 | a record with every field missing formats to description "", status "undone", markdown "", no params or headers, body type "none", response type "json" |
| `Formatter.FormatTopLevelFields` | src/index.ts:185-204 | id, title, method, path, project_id, catid, uid, add_time and up_time pass through unchanged; description, status and markdown take their defaults exactly when the source field is absent or empty |
| `Formatter.ParamsRequiredFlags` | src/index.ts:214-237 | a query entry is required iff its flag is the string "1"; a path entry is always required whatever its flag; a missing description becomes "" |
| `Formatter.HeadersRequiredFlags` | src/index.ts:248-258 | a header is required iff its flag is "1"; its value is kept, or is "" when missing or empty |
| `Formatter.JsonRequestBodyParsed` | src/index.ts:272-278 | for type "json" with non-empty schema text that decodes to v, the body is exactly `{type "json", schema Parsed(v)}` |
| `Formatter.JsonRequestBodyRaw` | src/index.ts:272-278 | for type "json" with schema text that does not decode, the schema is the raw text and nothing fails |
| `Formatter.RequestBodyShape` | src/index.ts:266-286 | schema present iff type is "json" and the text is non-empty; form present iff type is "form" and the form is truthy, passed through unchanged; never both; type "none" with neither when no type is given |
| `Formatter.ResponseShape` | src/index.ts:291-315 | schema present iff `res_body_other` is non-empty, whatever the type; example present iff the type is literally "json" and `res_body` is non-empty; a non-empty type is the response type as given, and a missing or empty type reads "json" but gives no example; both use decode-or-raw |
| `JsonValues.DecodeOrRaw` | src/index.ts:273-277 | the result is the decoded value when the parse succeeds, otherwise the raw text unchanged |
| `UrlParser.DigitRunEnd` | src/index.ts:332 | the end of the maximal, possibly empty, run of ASCII digits from a position (greedy `\d*`): every character before it is a digit and the character at it is not; `MatchAt` rejects an empty run, which gives `\d+` |
| `UrlParser.FirstMatch` | src/index.ts:332 | the returned position matches and no position to its left matches; no result means no position matches |
| `UrlParser.ParseInterfaceUrl` | src/index.ts:326-346 | an invalid URL gives no result; any result has base URL `protocol + "//" + host` |
| `UrlParser.MatchAt` | src/index.ts:332-339 | the regular expression tried at one position: a match captures two non-empty digit strings, `/project/<p>/interface/api/<i>` occurs in the path there, and it ends at the end of the path or before a non-digit; `MatchComplete` states the converse |
| `UrlParser.MatchComplete` | src/index.ts:332 | every occurrence of the pattern matches at its position, capturing the project id exactly and the interface id with any digits that follow it |
| `UrlParser.ParseMeaning` | src/index.ts:332-342 | a valid URL gives no result iff the pattern matches nowhere in the path; a result has all-digit ids whose pattern occurs in the path, is followed by the end of the path or a non-digit (the interface id is the whole digit run), and no match starts further left |
| `UrlParser.ParseNoneIffNoMatch` | src/index.ts:332-342 | a valid URL gives no result iff the pattern matches at no position of the path |
| `UrlParser.ParseFound` | src/index.ts:332-340 | at the leftmost match position the result has digit ids, and the pattern built from them occurs there, ends before a non-digit or at the end, and no match starts further left |
| `UrlParser.ParseFindsOccurrence` | src/index.ts:332-340 | a path containing the pattern with numeric ids is always recognised |
| `UrlParser.ParseNeedsInterfaceSegment` | src/index.ts:332-342 | a path without `/interface/api/` anywhere gives no result |
| `UrlParser.ParsePatternPrefix` | src/index.ts:328-340 | round trip: a path that starts with the pattern built from two ids, followed by a non-digit or nothing, parses back to exactly those ids |
| `UrlParser.ParseDocumentedExample` | src/index.ts:324 | `/project/100/interface/api/12345` gives project "100" and interface "12345" on any scheme and host |
| `UrlParser.ParseIgnoresTrailingText` | src/index.ts:332 | `/project/1/interface/api/12abc` gives interface "12", because the pattern is unanchored |
| `Client.ResolveToken` | src/index.ts:55-58 | the per-call token wins when non-empty, else the client's token; no token is sent iff neither is non-empty; a sent token is never empty |
| `Client.WithToken` | src/index.ts:56-58 | the operation's own parameters come first, unchanged, and a `token` parameter is appended only when a token resolved |
| `Client.DetailsRequest` | src/index.ts:52-60 | the detail request goes to the given base URL at `/api/interface/get` with `id`, then the token when there is one |
| `Client.ProjectRequest` | src/index.ts:77-85 | the project request goes to `/api/project/get` with `id`, then the token when there is one |
| `Client.SearchRequest` | src/index.ts:136-147 | the search request goes to `/api/interface/search` with `project_id` and `q`, then the token when there is one |
| `Client.ListRequest` | src/index.ts:105-117 | a non-empty category id selects `/api/interface/list_cat` with `catid`, otherwise `/api/interface/list` with `project_id`, never both |
| `Client.HandleError` | src/index.ts:162-171 | every error message is the context label, ": ", then the serialized response body (transport failure with a truthy body), the transport message (no body) or the thrown message |
| `Client.Unwrap` | src/index.ts:62-66 | success iff the reply is an envelope with errcode exactly 0 (a missing errcode fails), and it yields the envelope's data; a rejected envelope fails with `context + ": "` followed by errmsg, or by the context label when errmsg is absent or empty; a transport failure fails with `HandleError`'s message for it |
| `Client.ServiceDefaultReported` | src/index.ts:62-63 | a non-zero errcode with an absent or empty errmsg fails with exactly `context + ": " + context` |
| `Client.ListData` | src/index.ts:125 | `data`, or `[]` when it is falsy: the result is always truthy; an absent or falsy payload becomes the empty array, anything else passes through |
| `Client.ListOutcome` | src/index.ts:121-125 | list and search fail exactly when the envelope check fails, with the same message, and otherwise return `data`, or `[]` when it is falsy |
| `Client.ServiceMessageReported` | src/index.ts:62-63 | a non-zero errcode with a non-empty errmsg fails with exactly `context + ": " + errmsg` |
| `Client.MissingListDataIsEmpty` | src/index.ts:153 | an accepted list or search envelope without data returns the empty array, not a failure |
| `Client.YApiClient.constructor` | src/index.ts:24-26 | the base URL is the configured one when non-empty, else `https://yapi.example.com`; the token is the configured one |
| `Client.YApiClient.SetAuthToken` | src/index.ts:43-45 | the client's token becomes the given one and nothing else changes |
| `Client.YApiClient.GetInterfaceDetails` | src/index.ts:50-70 | sends `/api/interface/get` with `id` and the resolved token to the current base URL, and returns the envelope check's outcome |
| `Client.YApiClient.GetProjectInfo` | src/index.ts:75-95 | sends `/api/project/get` with `id` and the resolved token, and returns the envelope check's outcome |
| `Client.YApiClient.GetInterfaceList` | src/index.ts:100-129 | sends the request `ListRequest` selects and returns the envelope outcome with the `[]` fallback for falsy data |
| `Client.YApiClient.SearchInterface` | src/index.ts:134-157 | sends `/api/interface/search` with `project_id`, `q` and the resolved token, and returns the envelope outcome with the `[]` fallback for falsy data |
| `Handlers.LookupReply` | src/index.ts:413-450 | a found result iff the fetch succeeded with a record, and it is that record formatted, labelled with the source URL and the server; every error text starts with "错误: " and a fetch failure carries its message; an accepted envelope without a record gives exactly the TypeError text about reading `req_query` from `undefined` |
| `Handlers.GetInterfaceByUrl` | src/index.ts:391-451 | an unparsable URL gives the fixed error reply; otherwise the detail request goes to the server named in the URL; afterwards the client's base URL equals its value beforehand, on success and on failure |

## Left out

- The MCP server setup is not modelled, because it is protocol glue over an SDK that is not part of this model (src/index.ts:352-626). This includes tool registration, argument schemas, the stdio transport, the reply wrappers of the get-interface, get-project, list and search tools, and the serialization of replies to text.
- The axios instance, the HTTP requests, the 30-second timeout and the recognition of axios errors are network I/O. They are replaced by the `remote` oracle. Its transport failure carries the optional response body and the error text.
- `JSON.parse` and `JSON.stringify` are the parameters `decode` and `stringify`. No JSON grammar is modelled.
- URL syntax parsing by the platform's `URL` class is not modelled. The URL arrives split into protocol, host and pathname, or as `None` when it is invalid.
- Environment variables, console logging, the process-level error handlers and `main` are left out. The constructor takes the configured base URL and token as parameters.
- The axios instance's `defaults.baseURL` always changes together with `baseUrl`, so the single `baseUrl` field stands for both.
- Handlers run one at a time. The race between interleaved handlers on the shared `baseUrl` is not modelled.
- Record fields are narrowed to the types the service sends: text fields are strings, identifiers and timestamps are JSON values, and numbers are reals. Non-string values in the string fields are not modelled. Neither are a `required` flag sent as a number, nor `null` entries inside the arrays (reading a property of `null` throws a TypeError).
- Failures other than a transport failure or a rejected envelope are not modelled. Examples are a non-object `response.data`, or a thrown value that is not an `Error` (`String(error)`).
- `UrlParser.ParseInterfaceUrl`: its own contract states only the invalid-URL case and the base URL. The digit and occurrence properties and the leftmost rule are stated by `ParseMeaning`, `MatchAt` and `MatchComplete`.
- `LookupReply`: an accepted envelope whose `data` is `null` is not told apart from one without `data`. In the source the TypeError text then names `null` instead of `undefined`. The model gives the `undefined` text for both, because the record payload is typed as an optional record.
