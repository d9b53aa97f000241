/**
 * The lookup-by-URL tool handler: parse the page address, point the client
 * at the server named in it for the one detail fetch, format the record, and
 * put the client's base URL back whatever happened.
 *
 * Sequential model: one handler invocation runs at a time.
 */
module Handlers {
  import opened Wrappers
  import opened JsonValues
  import opened Formatter
  import opened UrlParser
  import opened Client

  /** The formatted interface with the address it came from and the server it was read from. */
  datatype LookupResult = LookupResult(formatted: FormattedInterface, sourceUrl: string, yapiServer: string)

  /** A tool reply: a result, or a text flagged as an error. */
  datatype ToolReply = Found(result: LookupResult) | ToolError(text: string)

  const ErrorPrefix := "错误: "

  const UnparsableUrl :=
    "错误: 无法解析YApi URL。请确保URL格式正确,例如: https://yapi.example.com/project/100/interface/api/12345"

  /**
   * The message of the TypeError thrown when the formatter, whose first step
   * is the request-parameter extraction, reads `req_query` from an absent
   * payload (an accepted envelope without `data`).
   */
  const MissingRecord := "Cannot read properties of undefined (reading 'req_query')"

  /**
   * The reply once the detail fetch has run: a failure is reported behind the
   * error prefix, an accepted envelope without a record fails in the
   * formatter, and a record is formatted and labelled with its origin.
   */
  function LookupReply(fetched: Result<Option<InterfaceRecord>, string>, decode: string -> Option<Json>,
                       url: string, server: string): (reply: ToolReply)
    ensures reply.Found? <==> fetched.Success? && fetched.value.Some?
    ensures reply.Found? ==>
      reply.result == LookupResult(Format(decode, fetched.value.value), url, server)
    ensures reply.ToolError? ==> ErrorPrefix <= reply.text
    ensures fetched.Failure? ==> reply.text == ErrorPrefix + fetched.error
    ensures fetched == Success(None) ==> reply == ToolError(ErrorPrefix + MissingRecord)
  {
    match fetched
    case Failure(msg) => ToolError(ErrorPrefix + msg)
    case Success(None) => ToolError(ErrorPrefix + MissingRecord)
    case Success(Some(rec)) => Found(LookupResult(Format(decode, rec), url, server))
  }

  /**
   * `yapi_get_interface_by_url`. `url` is the address as given and `parts`
   * what the platform's URL parser made of it (`None` when it rejected it).
   * The fetch is sent to the server named in the address; afterwards the
   * client's base URL is the one it had before, on success and on failure.
   */
  method GetInterfaceByUrl(client: YApiClient, url: string, parts: Option<UrlParts>, callToken: Option<string>,
                           remote: Request -> Reply<InterfaceRecord>,
                           decode: string -> Option<Json>, stringify: Json -> string)
    returns (reply: ToolReply)
    modifies client`baseUrl
    ensures client.baseUrl == old(client.baseUrl)
    ensures ParseInterfaceUrl(parts).None? ==> reply == ToolError(UnparsableUrl)
    ensures ParseInterfaceUrl(parts).Some? ==>
      var target := ParseInterfaceUrl(parts).value;
      reply == LookupReply(
        Unwrap(remote(DetailsRequest(target.baseUrl, target.interfaceId, ResolveToken(callToken, client.token))),
               DetailsFailed, stringify),
        decode, url, target.baseUrl)
  {
    var parsed := ParseInterfaceUrl(parts);
    if parsed.None? {
      return ToolError(UnparsableUrl);
    }
    var target := parsed.value;

    var originalBaseUrl := client.baseUrl;
    client.baseUrl := target.baseUrl;

    var fetched := client.GetInterfaceDetails(target.interfaceId, callToken, remote, stringify);
    match fetched {
      case Failure(msg) =>
        reply := ToolError(ErrorPrefix + msg);
      case Success(None) =>
        reply := ToolError(ErrorPrefix + MissingRecord);
      case Success(Some(rec)) =>
        var formatted := FormatInterfaceDetails(decode, rec);
        reply := Found(LookupResult(formatted, url, target.baseUrl));
    }

    // The restore runs on every path that changed the base URL.
    client.baseUrl := originalBaseUrl;
  }
}
