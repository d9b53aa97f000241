/**
 * InterfaceFormatter: turns one loosely typed interface record, as the
 * documentation service returns it, into a result of fixed shape.
 *
 * Absent fields are `None`; a string field that is present but empty behaves
 * like an absent one wherever the source uses `||`. Every operation is total:
 * formatting never fails.
 */
module Formatter {
  import opened Wrappers
  import opened JsonValues

  /** One entry of `req_query`, `req_params` or `req_headers`. */
  datatype RawField = RawField(
    name: Option<string>,
    value: Option<string>,
    required: Option<string>,
    desc: Option<string>,
    example: Option<string>)

  /**
   * The raw interface record. `reqQuery`, `reqParams` and `reqHeaders` are
   * `None` when the field is absent or is not an array.
   */
  datatype InterfaceRecord = InterfaceRecord(
    id: Option<Json>,
    title: Option<string>,
    httpMethod: Option<string>,
    path: Option<string>,
    desc: Option<string>,
    status: Option<string>,
    markdown: Option<string>,
    reqQuery: Option<seq<RawField>>,
    reqParams: Option<seq<RawField>>,
    reqHeaders: Option<seq<RawField>>,
    reqBodyType: Option<string>,
    reqBodyOther: Option<string>,
    reqBodyForm: Option<Json>,
    resBodyType: Option<string>,
    resBody: Option<string>,
    resBodyOther: Option<string>,
    projectId: Option<Json>,
    catId: Option<Json>,
    uid: Option<Json>,
    addTime: Option<Json>,
    upTime: Option<Json>)

  datatype Location = Query | Path

  datatype Param = Param(
    name: Option<string>,
    location: Location,
    required: bool,
    description: string,
    example: string)

  datatype Header = Header(
    name: Option<string>,
    value: string,
    required: bool,
    description: string,
    example: string)

  /** `schema` and `form` are absent (`None`) unless their condition holds. */
  datatype RequestBody = RequestBody(
    bodyType: string,
    schema: Option<Decoded>,
    form: Option<Json>)

  datatype ResponseInfo = ResponseInfo(
    bodyType: string,
    example: Option<Decoded>,
    schema: Option<Decoded>)

  datatype RequestSection = RequestSection(
    params: seq<Param>,
    headers: seq<Header>,
    body: RequestBody)

  datatype FormattedInterface = FormattedInterface(
    id: Option<Json>,
    title: Option<string>,
    httpMethod: Option<string>,
    path: Option<string>,
    description: string,
    status: string,
    request: RequestSection,
    response: ResponseInfo,
    markdown: string,
    projectId: Option<Json>,
    catId: Option<Json>,
    uid: Option<Json>,
    addTime: Option<Json>,
    upTime: Option<Json>)

  /** The entries of an array field; an absent or non-array field has none. */
  function Entries(o: Option<seq<RawField>>): seq<RawField> {
    match o
    case Some(fs) => fs
    case None => []
  }

  /**
   * A query-string entry: required exactly when its flag is the string "1";
   * the description and example are the entry's own when non-empty, else "".
   */
  function QueryParam(f: RawField): (r: Param)
    ensures r.name == f.name && r.location == Query
    ensures r.required <==> f.required == Some("1")
    ensures r.description == (if NonEmpty(f.desc) then f.desc.value else "")
    ensures r.example == (if NonEmpty(f.example) then f.example.value else "")
  {
    Param(f.name, Query, f.required == Some("1"), OrElse(f.desc, ""), OrElse(f.example, ""))
  }

  /** A path entry: always required, whatever its flag says. */
  function PathParam(f: RawField): (r: Param)
    ensures r.name == f.name && r.location == Path && r.required
    ensures r.description == (if NonEmpty(f.desc) then f.desc.value else "")
    ensures r.example == (if NonEmpty(f.example) then f.example.value else "")
  {
    Param(f.name, Path, true, OrElse(f.desc, ""), OrElse(f.example, ""))
  }

  /** A header entry: required exactly when its flag is "1"; value, description and example default to "". */
  function HeaderOf(f: RawField): (r: Header)
    ensures r.name == f.name
    ensures r.required <==> f.required == Some("1")
    ensures r.value == (if NonEmpty(f.value) then f.value.value else "")
    ensures r.description == (if NonEmpty(f.desc) then f.desc.value else "")
    ensures r.example == (if NonEmpty(f.example) then f.example.value else "")
  {
    Header(f.name, OrElse(f.value, ""), f.required == Some("1"), OrElse(f.desc, ""), OrElse(f.example, ""))
  }

  /**
   * `request.params`: every query entry, then every path entry, each array in
   * its own order.
   */
  function RequestParams(rec: InterfaceRecord): (r: seq<Param>)
    ensures |r| == |Entries(rec.reqQuery)| + |Entries(rec.reqParams)|
    ensures forall i :: 0 <= i < |Entries(rec.reqQuery)| ==>
      r[i] == QueryParam(Entries(rec.reqQuery)[i])
    ensures forall i :: 0 <= i < |Entries(rec.reqParams)| ==>
      r[|Entries(rec.reqQuery)| + i] == PathParam(Entries(rec.reqParams)[i])
  {
    var qs, ps := Entries(rec.reqQuery), Entries(rec.reqParams);
    seq(|qs|, i requires 0 <= i < |qs| => QueryParam(qs[i])) +
    seq(|ps|, i requires 0 <= i < |ps| => PathParam(ps[i]))
  }

  /** `request.headers`: one header per `req_headers` entry, in order. */
  function RequestHeaders(rec: InterfaceRecord): (r: seq<Header>)
    ensures |r| == |Entries(rec.reqHeaders)|
    ensures forall i :: 0 <= i < |r| ==> r[i] == HeaderOf(Entries(rec.reqHeaders)[i])
  {
    var hs := Entries(rec.reqHeaders);
    seq(|hs|, i requires 0 <= i < |hs| => HeaderOf(hs[i]))
  }

  /** The request body descriptor, as a value. */
  function RequestBodyOf(decode: string -> Option<Json>, rec: InterfaceRecord): RequestBody {
    RequestBody(
      OrElse(rec.reqBodyType, "none"),
      if rec.reqBodyType == Some("json") && NonEmpty(rec.reqBodyOther)
      then Some(DecodeOrRaw(decode, rec.reqBodyOther.value)) else None,
      if rec.reqBodyType == Some("form") && Present(rec.reqBodyForm)
      then rec.reqBodyForm else None)
  }

  /** The response descriptor, as a value. */
  function ResponseInfoOf(decode: string -> Option<Json>, rec: InterfaceRecord): ResponseInfo {
    ResponseInfo(
      OrElse(rec.resBodyType, "json"),
      if rec.resBodyType == Some("json") && NonEmpty(rec.resBody)
      then Some(DecodeOrRaw(decode, rec.resBody.value)) else None,
      if NonEmpty(rec.resBodyOther)
      then Some(DecodeOrRaw(decode, rec.resBodyOther.value)) else None)
  }

  /** The whole formatted interface, as a value. */
  function Format(decode: string -> Option<Json>, rec: InterfaceRecord): FormattedInterface {
    FormattedInterface(
      rec.id, rec.title, rec.httpMethod, rec.path,
      OrElse(rec.desc, ""),
      OrElse(rec.status, "undone"),
      RequestSection(RequestParams(rec), RequestHeaders(rec), RequestBodyOf(decode, rec)),
      ResponseInfoOf(decode, rec),
      OrElse(rec.markdown, ""),
      rec.projectId, rec.catId, rec.uid, rec.addTime, rec.upTime)
  }

  /** Builds `request.params`: the query entries are pushed first, then the path entries. */
  method ExtractRequestParams(rec: InterfaceRecord) returns (params: seq<Param>)
    ensures params == RequestParams(rec)
  {
    params := [];
    if rec.reqQuery.Some? {
      params := PushQueryParams(params, rec.reqQuery.value);
    }
    if rec.reqParams.Some? {
      params := PushPathParams(params, rec.reqParams.value);
    }
    ghost var expected, n := RequestParams(rec), |Entries(rec.reqQuery)|;
    forall k | 0 <= k < |params|
      ensures params[k] == expected[k]
    {
      if k < n {
        QueryEntry(rec, k);
      } else {
        PathEntry(rec, k - n);
      }
    }
  }

  /** `req_query.forEach(... params.push(...))`: one query descriptor per entry, appended in order. */
  method PushQueryParams(params: seq<Param>, qs: seq<RawField>) returns (r: seq<Param>)
    ensures |r| == |params| + |qs|
    ensures r[..|params|] == params
    ensures forall k :: 0 <= k < |qs| ==> r[|params| + k] == QueryParam(qs[k])
  {
    r := params;
    var i := 0;
    while i < |qs|
      invariant 0 <= i <= |qs|
      invariant |r| == |params| + i
      invariant r[..|params|] == params
      invariant forall k :: 0 <= k < i ==> r[|params| + k] == QueryParam(qs[k])
    {
      r := r + [QueryParam(qs[i])];
      i := i + 1;
    }
  }

  /** `req_params.forEach(... params.push(...))`: one path descriptor per entry, appended in order. */
  method PushPathParams(params: seq<Param>, ps: seq<RawField>) returns (r: seq<Param>)
    ensures |r| == |params| + |ps|
    ensures r[..|params|] == params
    ensures forall k :: 0 <= k < |ps| ==> r[|params| + k] == PathParam(ps[k])
  {
    r := params;
    var i := 0;
    while i < |ps|
      invariant 0 <= i <= |ps|
      invariant |r| == |params| + i
      invariant r[..|params|] == params
      invariant forall k :: 0 <= k < i ==> r[|params| + k] == PathParam(ps[k])
    {
      r := r + [PathParam(ps[i])];
      i := i + 1;
    }
  }

  /** Builds `request.headers` by pushing one descriptor per entry. */
  method ExtractHeaders(rec: InterfaceRecord) returns (headers: seq<Header>)
    ensures headers == RequestHeaders(rec)
  {
    headers := [];
    if rec.reqHeaders.Some? {
      var hs := rec.reqHeaders.value;
      var i := 0;
      while i < |hs|
        invariant 0 <= i <= |hs|
        invariant |headers| == i
        invariant forall k :: 0 <= k < i ==> headers[k] == HeaderOf(hs[k])
      {
        headers := headers + [HeaderOf(hs[i])];
        i := i + 1;
      }
    }
  }

  /** Starts from `{type}` and adds `schema` or `form` when their condition holds. */
  method ExtractRequestBody(decode: string -> Option<Json>, rec: InterfaceRecord) returns (body: RequestBody)
    ensures body == RequestBodyOf(decode, rec)
  {
    body := RequestBody(OrElse(rec.reqBodyType, "none"), None, None);
    if rec.reqBodyType == Some("json") && NonEmpty(rec.reqBodyOther) {
      body := body.(schema := Some(DecodeOrRaw(decode, rec.reqBodyOther.value)));
    }
    if rec.reqBodyType == Some("form") && Present(rec.reqBodyForm) {
      body := body.(form := rec.reqBodyForm);
    }
  }

  /** Starts from `{type}` and adds `example` and `schema` when their condition holds. */
  method ExtractResponseInfo(decode: string -> Option<Json>, rec: InterfaceRecord) returns (response: ResponseInfo)
    ensures response == ResponseInfoOf(decode, rec)
  {
    response := ResponseInfo(OrElse(rec.resBodyType, "json"), None, None);
    if rec.resBodyType == Some("json") && NonEmpty(rec.resBody) {
      response := response.(example := Some(DecodeOrRaw(decode, rec.resBody.value)));
    }
    if NonEmpty(rec.resBodyOther) {
      response := response.(schema := Some(DecodeOrRaw(decode, rec.resBodyOther.value)));
    }
  }

  /** Assembles the formatted interface from the four extractions. */
  method FormatInterfaceDetails(decode: string -> Option<Json>, rec: InterfaceRecord) returns (r: FormattedInterface)
    ensures r == Format(decode, rec)
  {
    var params := ExtractRequestParams(rec);
    var response := ExtractResponseInfo(decode, rec);
    var headers := ExtractHeaders(rec);
    var body := ExtractRequestBody(decode, rec);
    r := FormattedInterface(
      rec.id, rec.title, rec.httpMethod, rec.path,
      OrElse(rec.desc, ""),
      OrElse(rec.status, "undone"),
      RequestSection(params, headers, body),
      response,
      OrElse(rec.markdown, ""),
      rec.projectId, rec.catId, rec.uid, rec.addTime, rec.upTime);
  }

  /** A record with every field missing still formats, to the documented defaults. */
  lemma FormatSparseRecord(decode: string -> Option<Json>)
    ensures Format(decode, InterfaceRecord(None, None, None, None, None, None, None, None, None, None,
                                           None, None, None, None, None, None, None, None, None, None, None))
      == FormattedInterface(None, None, None, None, "", "undone",
                            RequestSection([], [], RequestBody("none", None, None)),
                            ResponseInfo("json", None, None),
                            "", None, None, None, None, None)
  {
  }

  /**
   * The identity and provenance fields pass through unchanged, and the three
   * text fields fall back to their defaults only when absent or empty.
   */
  lemma FormatTopLevelFields(decode: string -> Option<Json>, rec: InterfaceRecord)
    ensures var r := Format(decode, rec);
      && r.id == rec.id && r.title == rec.title && r.httpMethod == rec.httpMethod && r.path == rec.path
      && r.projectId == rec.projectId && r.catId == rec.catId && r.uid == rec.uid
      && r.addTime == rec.addTime && r.upTime == rec.upTime
      && (r.description == "" <==> !NonEmpty(rec.desc))
      && (NonEmpty(rec.desc) ==> r.description == rec.desc.value)
      && (NonEmpty(rec.status) ==> r.status == rec.status.value)
      && (!NonEmpty(rec.status) ==> r.status == "undone")
      && (r.markdown == "" <==> !NonEmpty(rec.markdown))
      && (NonEmpty(rec.markdown) ==> r.markdown == rec.markdown.value)
  {
  }

  /**
   * Query entries are required exactly when their flag is the string "1";
   * path entries are always required. A missing description is "".
   */
  lemma ParamsRequiredFlags(rec: InterfaceRecord)
    ensures var params, qs, ps := RequestParams(rec), Entries(rec.reqQuery), Entries(rec.reqParams);
      && (forall i :: 0 <= i < |qs| ==>
            params[i].location == Query && params[i].name == qs[i].name &&
            (params[i].required <==> qs[i].required == Some("1")) &&
            (!NonEmpty(qs[i].desc) ==> params[i].description == ""))
      && (forall i :: 0 <= i < |ps| ==>
            params[|qs| + i].location == Path && params[|qs| + i].required &&
            params[|qs| + i].name == ps[i].name &&
            (!NonEmpty(ps[i].desc) ==> params[|qs| + i].description == ""))
  {
    QueryParamsFlags(rec);
    PathParamsFlags(rec);
  }

  /** The query half of `ParamsRequiredFlags`. */
  lemma QueryParamsFlags(rec: InterfaceRecord)
    ensures var params, qs := RequestParams(rec), Entries(rec.reqQuery);
      forall i :: 0 <= i < |qs| ==>
        params[i].location == Query && params[i].name == qs[i].name &&
        (params[i].required <==> qs[i].required == Some("1")) &&
        (!NonEmpty(qs[i].desc) ==> params[i].description == "")
  {
    var params, qs := RequestParams(rec), Entries(rec.reqQuery);
    forall i | 0 <= i < |qs|
      ensures params[i].location == Query && params[i].name == qs[i].name
      ensures params[i].required <==> qs[i].required == Some("1")
      ensures !NonEmpty(qs[i].desc) ==> params[i].description == ""
    {
      QueryEntry(rec, i);
    }
  }

  /** The path half of `ParamsRequiredFlags`. */
  lemma PathParamsFlags(rec: InterfaceRecord)
    ensures var params, qs, ps := RequestParams(rec), Entries(rec.reqQuery), Entries(rec.reqParams);
      forall i :: 0 <= i < |ps| ==>
        params[|qs| + i].location == Path && params[|qs| + i].required &&
        params[|qs| + i].name == ps[i].name &&
        (!NonEmpty(ps[i].desc) ==> params[|qs| + i].description == "")
  {
    var params, qs, ps := RequestParams(rec), Entries(rec.reqQuery), Entries(rec.reqParams);
    var n := |qs|;
    forall i | 0 <= i < |ps|
      ensures params[n + i].location == Path && params[n + i].required
      ensures params[n + i].name == ps[i].name
      ensures !NonEmpty(ps[i].desc) ==> params[n + i].description == ""
    {
      PathEntry(rec, i);
    }
  }

  /** The `i`-th entry of `request.params` describes the `i`-th query entry. */
  lemma QueryEntry(rec: InterfaceRecord, i: nat)
    requires i < |Entries(rec.reqQuery)|
    ensures RequestParams(rec)[i] == QueryParam(Entries(rec.reqQuery)[i])
  {
  }

  /** The path entries follow the query entries in `request.params`. */
  lemma PathEntry(rec: InterfaceRecord, i: nat)
    requires i < |Entries(rec.reqParams)|
    ensures RequestParams(rec)[|Entries(rec.reqQuery)| + i] == PathParam(Entries(rec.reqParams)[i])
  {
  }

  /** Headers keep their own value, and are required exactly when flagged "1". */
  lemma HeadersRequiredFlags(rec: InterfaceRecord)
    ensures var headers, hs := RequestHeaders(rec), Entries(rec.reqHeaders);
      forall i :: 0 <= i < |hs| ==>
        headers[i].name == hs[i].name &&
        (headers[i].required <==> hs[i].required == Some("1")) &&
        (NonEmpty(hs[i].value) ==> headers[i].value == hs[i].value.value) &&
        (!NonEmpty(hs[i].value) ==> headers[i].value == "")
  {
  }

  /** A JSON request body whose schema text decodes is reported as the decoded value. */
  lemma JsonRequestBodyParsed(decode: string -> Option<Json>, rec: InterfaceRecord, v: Json)
    requires rec.reqBodyType == Some("json") && NonEmpty(rec.reqBodyOther)
    requires decode(rec.reqBodyOther.value) == Some(v)
    ensures Format(decode, rec).request.body == RequestBody("json", Some(Parsed(v)), None)
  {
  }

  /** A JSON request body whose schema text does not decode keeps the raw text. */
  lemma JsonRequestBodyRaw(decode: string -> Option<Json>, rec: InterfaceRecord)
    requires rec.reqBodyType == Some("json") && NonEmpty(rec.reqBodyOther)
    requires decode(rec.reqBodyOther.value).None?
    ensures Format(decode, rec).request.body == RequestBody("json", Some(Raw(rec.reqBodyOther.value)), None)
  {
  }

  /**
   * The request body carries a schema only for type "json" with non-empty
   * schema text, and a form only for type "form" with a truthy form, which
   * is passed through unchanged. Its type tag is "none" when none is given.
   */
  lemma RequestBodyShape(decode: string -> Option<Json>, rec: InterfaceRecord)
    ensures var body := Format(decode, rec).request.body;
      && (body.schema.Some? <==> rec.reqBodyType == Some("json") && NonEmpty(rec.reqBodyOther))
      && (body.form.Some? <==> rec.reqBodyType == Some("form") && Present(rec.reqBodyForm))
      && (body.form.Some? ==> body.form == rec.reqBodyForm)
      && !(body.schema.Some? && body.form.Some?)
      && (NonEmpty(rec.reqBodyType) ==> body.bodyType == rec.reqBodyType.value)
      && (!NonEmpty(rec.reqBodyType) ==> body.bodyType == "none" && body.schema.None? && body.form.None?)
  {
  }

  /**
   * The response schema depends only on `res_body_other`, whatever the body
   * type. A non-empty type is reported as given. The example needs the type
   * to be literally "json": a missing type is reported as "json" but yields
   * no example.
   */
  lemma ResponseShape(decode: string -> Option<Json>, rec: InterfaceRecord)
    ensures var response := Format(decode, rec).response;
      && (response.schema.Some? <==> NonEmpty(rec.resBodyOther))
      && (response.schema.Some? ==> response.schema.value == DecodeOrRaw(decode, rec.resBodyOther.value))
      && (response.example.Some? <==> rec.resBodyType == Some("json") && NonEmpty(rec.resBody))
      && (response.example.Some? ==> response.example.value == DecodeOrRaw(decode, rec.resBody.value))
      && (NonEmpty(rec.resBodyType) ==> response.bodyType == rec.resBodyType.value)
      && (!NonEmpty(rec.resBodyType) ==> response.bodyType == "json" && response.example.None?)
  {
  }
}
