/**
 * YApiClient: the read-only client of the documentation service.
 *
 * The HTTP GET itself is an oracle `remote` that maps a request (the
 * client's current base URL, an endpoint path and the query parameters in
 * the order they are set) to what came back: either a service envelope
 * `{errcode, errmsg, data}` or a transport failure (no answer, a non-2xx
 * status, a timeout) with the response body when there was one.
 * `JSON.stringify`, used to put such a body into an error message, is the
 * parameter `stringify`.
 */
module Client {
  import opened Wrappers
  import opened JsonValues
  import Formatter

  /** The base URL used when none is configured. */
  const DefaultBaseUrl := "https://yapi.example.com"

  /**
   * Per-operation context labels. Each operation also uses its label as the
   * message when the service reports a failure without one.
   */
  const DetailsFailed := "获取接口详情失败"
  const ProjectFailed := "获取项目信息失败"
  const ListFailed := "获取接口列表失败"
  const SearchFailed := "搜索接口失败"

  datatype Request = Request(baseUrl: string, endpoint: string, params: seq<(string, string)>)

  /** The service's envelope; any of its fields may be missing. */
  datatype Envelope<D> = Envelope(errcode: Option<Json>, errmsg: Option<string>, data: Option<D>)

  datatype Reply<D> =
    | Answered(envelope: Envelope<D>)
    | TransportFailed(body: Option<Json>, message: string)

  /** What the body of an operation can throw before `handleError` sees it. */
  datatype Thrown =
    | ServiceError(message: string)
    | TransportError(body: Option<Json>, message: string)

  /**
   * `token || this.token`, then sent only if truthy: the per-call token wins
   * when it is non-empty, the client's token is the fallback, and no token is
   * sent when neither is a non-empty string.
   */
  function ResolveToken(callToken: Option<string>, clientToken: Option<string>): (r: Option<string>)
    ensures r.None? <==> !NonEmpty(callToken) && !NonEmpty(clientToken)
    ensures r.Some? ==> r.value != ""
    ensures NonEmpty(callToken) ==> r == callToken
    ensures !NonEmpty(callToken) && NonEmpty(clientToken) ==> r == clientToken
  {
    if NonEmpty(callToken) then callToken
    else if NonEmpty(clientToken) then clientToken
    else None
  }

  /** The query parameters followed by the `token` parameter when there is one. */
  function WithToken(params: seq<(string, string)>, token: Option<string>): (r: seq<(string, string)>)
    ensures |r| == |params| + (if token.Some? then 1 else 0)
    ensures r[..|params|] == params
    ensures token.Some? ==> r[|params|] == ("token", token.value)
  {
    params + (if token.Some? then [("token", token.value)] else [])
  }

  /** The detail request: `id`, then the token when there is one. */
  function DetailsRequest(baseUrl: string, interfaceId: string, token: Option<string>): (r: Request)
    ensures r.baseUrl == baseUrl && r.endpoint == "/api/interface/get"
    ensures r.params == WithToken([("id", interfaceId)], token)
  {
    Request(baseUrl, "/api/interface/get", WithToken([("id", interfaceId)], token))
  }

  /** The project request: `id`, then the token when there is one. */
  function ProjectRequest(baseUrl: string, projectId: string, token: Option<string>): (r: Request)
    ensures r.baseUrl == baseUrl && r.endpoint == "/api/project/get"
    ensures r.params == WithToken([("id", projectId)], token)
  {
    Request(baseUrl, "/api/project/get", WithToken([("id", projectId)], token))
  }

  /**
   * The list request: scoped to the category when the category id is a
   * non-empty string, otherwise to the project. Exactly one of `catid` and
   * `project_id` is sent.
   */
  function ListRequest(baseUrl: string, projectId: string, catId: Option<string>, token: Option<string>): (r: Request)
    ensures r.baseUrl == baseUrl
    ensures NonEmpty(catId) ==>
      r.endpoint == "/api/interface/list_cat" && r.params == WithToken([("catid", catId.value)], token)
    ensures !NonEmpty(catId) ==>
      r.endpoint == "/api/interface/list" && r.params == WithToken([("project_id", projectId)], token)
  {
    if NonEmpty(catId) then Request(baseUrl, "/api/interface/list_cat", WithToken([("catid", catId.value)], token))
    else Request(baseUrl, "/api/interface/list", WithToken([("project_id", projectId)], token))
  }

  /** The search request: `project_id` and `q`, then the token when there is one. */
  function SearchRequest(baseUrl: string, projectId: string, keyword: string, token: Option<string>): (r: Request)
    ensures r.baseUrl == baseUrl && r.endpoint == "/api/interface/search"
    ensures r.params == WithToken([("project_id", projectId), ("q", keyword)], token)
  {
    Request(baseUrl, "/api/interface/search", WithToken([("project_id", projectId), ("q", keyword)], token))
  }

  /**
   * `handleError`: every failure becomes one message, the context label, a
   * colon and a space, then the detail: the serialized response body of a
   * transport failure when it has a truthy body, else the transport's own
   * message, or the message of the service failure.
   */
  function HandleError(e: Thrown, context: string, stringify: Json -> string): (msg: string)
    ensures context + ": " <= msg
    ensures e.ServiceError? ==> msg == context + ": " + e.message
    ensures e.TransportError? && Present(e.body) ==> msg == context + ": " + stringify(e.body.value)
    ensures e.TransportError? && !Present(e.body) ==> msg == context + ": " + e.message
  {
    var detail :=
      match e
      case ServiceError(m) => m
      case TransportError(body, m) => if Present(body) then stringify(body.value) else m;
    context + ": " + detail
  }

  /**
   * The envelope check of every operation: a reply succeeds only when it is an
   * envelope whose `errcode` is the number 0 (an absent code fails); it then
   * yields the envelope's `data`, which may be absent. A non-zero code fails
   * with the service's message, or the context label when the message is
   * absent or empty. Every failure goes through `HandleError`.
   */
  function Unwrap<D>(reply: Reply<D>, context: string, stringify: Json -> string): (r: Result<Option<D>, string>)
    ensures r.Success? <==> reply.Answered? && reply.envelope.errcode == Some(Num(0.0))
    ensures r.Success? ==> r.value == reply.envelope.data
    ensures r.Failure? ==> context + ": " <= r.error
    ensures reply.TransportFailed? ==>
      r == Failure(HandleError(TransportError(reply.body, reply.message), context, stringify))
    ensures reply.Answered? && reply.envelope.errcode != Some(Num(0.0)) ==>
      r == Failure(context + ": " + OrElse(reply.envelope.errmsg, context))
  {
    match reply
    case TransportFailed(body, m) => Failure(HandleError(TransportError(body, m), context, stringify))
    case Answered(env) =>
      if env.errcode != Some(Num(0.0)) then
        Failure(HandleError(ServiceError(OrElse(env.errmsg, context)), context, stringify))
      else
        Success(env.data)
  }

  /** `data || []`: a list result is never falsy; an absent or falsy payload becomes `[]`. */
  function ListData(data: Option<Json>): (r: Json)
    ensures Truthy(r)
    ensures Present(data) ==> r == data.value
    ensures !Present(data) ==> r == Arr([])
  {
    if Present(data) then data.value else Arr([])
  }

  /** The list and search outcome: the envelope check, then `data || []`. */
  function ListOutcome(unwrapped: Result<Option<Json>, string>): (r: Result<Json, string>)
    ensures r.Success? <==> unwrapped.Success?
    ensures r.Success? ==> r.value == ListData(unwrapped.value)
    ensures r.Failure? ==> r.error == unwrapped.error
  {
    match unwrapped
    case Success(data) => Success(ListData(data))
    case Failure(msg) => Failure(msg)
  }

  /** A rejected envelope carries the service's own message after the context label. */
  lemma ServiceMessageReported<D>(code: Option<Json>, message: string, data: Option<D>, context: string, stringify: Json -> string)
    requires code != Some(Num(0.0)) && message != ""
    ensures Unwrap(Answered(Envelope(code, Some(message), data)), context, stringify)
      == Failure(context + ": " + message)
  {
  }

  /** A rejected envelope without a message, or with an empty one, carries the context label twice. */
  lemma ServiceDefaultReported<D>(code: Option<Json>, message: Option<string>, data: Option<D>, context: string,
                                  stringify: Json -> string)
    requires code != Some(Num(0.0)) && (message == None || message == Some(""))
    ensures Unwrap(Answered(Envelope(code, message, data)), context, stringify)
      == Failure(context + ": " + context)
  {
  }

  /** An accepted list envelope without `data` yields the empty list, not a failure. */
  lemma MissingListDataIsEmpty(errmsg: Option<string>, context: string, stringify: Json -> string)
    ensures ListOutcome(Unwrap(Answered(Envelope(Some(Num(0.0)), errmsg, None)), context, stringify))
      == Success(Arr([]))
  {
  }

  class YApiClient {
    var baseUrl: string
    var token: Option<string>

    /** Configured from the base URL and token settings, either of which may be missing. */
    constructor (configuredBaseUrl: Option<string>, configuredToken: Option<string>)
      ensures baseUrl == OrElse(configuredBaseUrl, DefaultBaseUrl)
      ensures token == configuredToken
    {
      baseUrl := OrElse(configuredBaseUrl, DefaultBaseUrl);
      token := configuredToken;
    }

    method SetAuthToken(t: string)
      modifies this`token
      ensures token == Some(t)
    {
      token := Some(t);
    }

    method GetInterfaceDetails(interfaceId: string, callToken: Option<string>,
                               remote: Request -> Reply<Formatter.InterfaceRecord>, stringify: Json -> string)
      returns (r: Result<Option<Formatter.InterfaceRecord>, string>)
      ensures r == Unwrap(remote(DetailsRequest(baseUrl, interfaceId, ResolveToken(callToken, token))), DetailsFailed, stringify)
    {
      var params := [("id", interfaceId)];
      var finalToken := ResolveToken(callToken, token);
      if finalToken.Some? {
        params := params + [("token", finalToken.value)];
      }
      assert params == WithToken([("id", interfaceId)], finalToken);
      var reply := remote(Request(baseUrl, "/api/interface/get", params));
      r := Unwrap(reply, DetailsFailed, stringify);
    }

    method GetProjectInfo(projectId: string, callToken: Option<string>,
                          remote: Request -> Reply<Json>, stringify: Json -> string)
      returns (r: Result<Option<Json>, string>)
      ensures r == Unwrap(remote(ProjectRequest(baseUrl, projectId, ResolveToken(callToken, token))), ProjectFailed, stringify)
    {
      var params := [("id", projectId)];
      var finalToken := ResolveToken(callToken, token);
      if finalToken.Some? {
        params := params + [("token", finalToken.value)];
      }
      assert params == WithToken([("id", projectId)], finalToken);
      var reply := remote(Request(baseUrl, "/api/project/get", params));
      r := Unwrap(reply, ProjectFailed, stringify);
    }

    method GetInterfaceList(projectId: string, catId: Option<string>, callToken: Option<string>,
                            remote: Request -> Reply<Json>, stringify: Json -> string)
      returns (r: Result<Json, string>)
      ensures r == ListOutcome(Unwrap(remote(ListRequest(baseUrl, projectId, catId, ResolveToken(callToken, token))), ListFailed, stringify))
    {
      var endpoint: string;
      var params: seq<(string, string)>;
      if NonEmpty(catId) {
        endpoint := "/api/interface/list_cat";
        params := [("catid", catId.value)];
      } else {
        endpoint := "/api/interface/list";
        params := [("project_id", projectId)];
      }
      var finalToken := ResolveToken(callToken, token);
      if finalToken.Some? {
        params := params + [("token", finalToken.value)];
      }
      assert Request(baseUrl, endpoint, params) == ListRequest(baseUrl, projectId, catId, finalToken);
      var reply := remote(Request(baseUrl, endpoint, params));
      r := ListOutcome(Unwrap(reply, ListFailed, stringify));
    }

    method SearchInterface(projectId: string, keyword: string, callToken: Option<string>,
                           remote: Request -> Reply<Json>, stringify: Json -> string)
      returns (r: Result<Json, string>)
      ensures r == ListOutcome(Unwrap(remote(SearchRequest(baseUrl, projectId, keyword, ResolveToken(callToken, token))), SearchFailed, stringify))
    {
      var params := [("project_id", projectId), ("q", keyword)];
      var finalToken := ResolveToken(callToken, token);
      if finalToken.Some? {
        params := params + [("token", finalToken.value)];
      }
      assert params == WithToken([("project_id", projectId), ("q", keyword)], finalToken);
      var reply := remote(Request(baseUrl, "/api/interface/search", params));
      r := ListOutcome(Unwrap(reply, SearchFailed, stringify));
    }
  }
}
