/** The browser's API client: the query string it builds from optional
    parameters, the URL and headers of each request, and how a reply or a
    failed fetch becomes a value or an `APIError`. The network itself is a
    parameter: a request is `Delivered` with a reply, `Aborted` by the
    5-second timer, or refused. */
module ApiClient {
  import opened Wrappers
  import opened JsValues
  import opened Seqs

  /** `API_BASE_URL`. */
  const ApiBaseUrl: string := "/api"

  /** `APIError(message, status, code)`. The message is the value the server
      sent, or the default string. */
  datatype ApiError = ApiError(message: Value, status: Option<int>, code: Value)

  /** Why a call rejects: an `APIError`, a reply whose body is not JSON, or a
      fetch that failed for another reason. */
  datatype Failure = Api(error: ApiError) | Syntax | Network

  /** A reply: status code and the body parsed as a JSON object (`None` when
      the body is not JSON, for instance empty). */
  datatype Reply = Reply(status: int, json: Option<Row>)

  /** What became of the request. */
  datatype Transport = Delivered(reply: Reply) | Aborted | Refused

  predicate IsOk(r: Reply) {
    200 <= r.status <= 299
  }

  const DefaultMessage: string := "An error occurred"

  // ---------------------------------------------------------------------------
  // Query string

  /** A call's optional parameters in the order the caller wrote them;
      `None` is an undefined value. */
  type Params = seq<(string, Option<string>)>

  /** The pair a parameter adds to the query: one when its value is defined,
      none otherwise. */
  function Entry(param: (string, Option<string>)): (r: seq<(string, string)>)
    ensures param.1.None? ==> r == []
    ensures param.1.Some? ==> r == [(param.0, param.1.value)]
  {
    if param.1.Some? then [(param.0, param.1.value)] else []
  }

  /** The parameters whose value is defined, in order. */
  function DefinedParams(params: Params): seq<(string, string)> {
    FlatMap(params, Entry)
  }

  /** The pairs kept are exactly those with a defined value. */
  lemma {:induction false} DefinedParamsMembers(params: Params, k: string, v: string)
    ensures (k, v) in DefinedParams(params) <==> (k, Some(v)) in params
  {
    if params != [] {
      DefinedParamsMembers(params[1..], k, v);
      assert params == [params[0]] + params[1..];
    }
  }

  /** The `forEach` over `Object.entries(params)` appending each defined
      value to the `URLSearchParams`. */
  method BuildQuery(params: Params) returns (query: seq<(string, string)>)
    ensures query == DefinedParams(params)
  {
    query := [];
    for i := 0 to |params|
      invariant query == DefinedParams(params[..i])
    {
      SplitDefined(params[..i], [params[i]]);
      assert params[..i + 1] == params[..i] + [params[i]];
      if params[i].1.Some? {
        query := query + [(params[i].0, params[i].1.value)];
      }
    }
    assert params[..|params|] == params;
  }

  lemma SplitDefined(a: Params, b: Params)
    ensures DefinedParams(a + b) == DefinedParams(a) + DefinedParams(b)
  {
    FlatMapAppend(a, b, Entry);
  }

  /** `URLSearchParams.toString()`: `key=value` pairs joined by `&`. */
  function Serialize(query: seq<(string, string)>): string {
    if query == [] then ""
    else if |query| == 1 then query[0].0 + "=" + query[0].1
    else query[0].0 + "=" + query[0].1 + "&" + Serialize(query[1..])
  }

  // ---------------------------------------------------------------------------
  // Requests

  /** `fetchWithTimeout` prefixes every URL with `API_BASE_URL`. */
  function RequestUrl(url: string): string {
    ApiBaseUrl + url
  }

  /** The URL `getAssets`, `getMaintenanceRecords` and `getFMEARecords`
      request: the caller has already prefixed `API_BASE_URL`, so the prefix
      appears twice. */
  method ListUrl(resource: string, params: Params) returns (url: string)
    ensures url == "/api/api/" + resource + "?" + Serialize(DefinedParams(params))
  {
    var query := BuildQuery(params);
    url := RequestUrl(ApiBaseUrl + "/" + resource + "?" + Serialize(query));
  }

  /** Every other call's URL (`/assets/{id}`, `/fmea`, ...). */
  function CallUrl(path: string): (url: string)
    ensures url == "/api/api" + path
  {
    RequestUrl(ApiBaseUrl + path)
  }

  /** The headers sent: `Content-Type: application/json`, then the caller's
      headers, which win on the same key. */
  function Headers(given: map<string, string>): (h: map<string, string>)
    ensures "Content-Type" in h
    ensures "Content-Type" !in given ==> h["Content-Type"] == "application/json"
    ensures forall k :: k in given ==> k in h && h[k] == given[k]
    ensures forall k :: k in h ==> k == "Content-Type" || k in given
  {
    map["Content-Type" := "application/json"] + given
  }

  /** `fetchWithTimeout`: the reply, `APIError('Request timeout', 408)` when
      the timer aborted the request, or the fetch's own failure. */
  function Fetch(t: Transport): (r: Result<Reply, Failure>)
    ensures t.Delivered? <==> r.Ok?
    ensures t.Aborted? ==> r == Err(Api(ApiError(Str("Request timeout"), Some(408), Undefined)))
    ensures t.Refused? ==> r == Err(Network)
  {
    match t
    case Delivered(reply) => Ok(reply)
    case Aborted => Err(Api(ApiError(Str("Request timeout"), Some(408), Undefined)))
    case Refused => Err(Network)
  }

  /** `handleResponse` as written: a non-OK reply becomes an `APIError` with
      the body's `message` (or the default) and `code`; an OK reply resolves
      to its parsed body, and rejects when the body is not JSON. */
  function HandleResponse(r: Reply): (res: Result<Row, Failure>)
    ensures !IsOk(r) ==> res.Err? && res.error.Api? && res.error.error.status == Some(r.status)
    ensures !IsOk(r) ==> res.error.error.code == Get(r.json.GetOr(map[]), "code")
    ensures !IsOk(r) ==> var m := Get(r.json.GetOr(map[]), "message");
      res.error.error.message == if Truthy(m) then m else Str(DefaultMessage)
    ensures IsOk(r) ==> (res.Ok? <==> r.json.Some?) && (res.Ok? ==> res.value == r.json.value)
  {
    if !IsOk(r) then
      var body := r.json.GetOr(map[]);
      var m := Get(body, "message");
      Err(Api(ApiError(if Truthy(m) then m else Str(DefaultMessage), Some(r.status), Get(body, "code"))))
    else if r.json.None? then Err(Syntax)
    else Ok(r.json.value)
  }

  /** The backend's error bodies carry `error`, never `message`, so the
      client always shows the default message for them. */
  lemma ServerErrorsShowDefault(status: int, body: Row)
    requires !(200 <= status <= 299) && "message" !in body
    ensures HandleResponse(Reply(status, Some(body))) ==
      Err(Api(ApiError(Str(DefaultMessage), Some(status), Get(body, "code"))))
  {
  }

  /** A successful delete answers 204 with an empty body, which is not JSON:
      as written, every delete call rejects even though the record is gone. */
  lemma NoContentRejects()
    ensures HandleResponse(Reply(204, None)) == Err(Syntax)
  {
  }

  /** `handleResponse` as intended: as above, except that a 204 reply
      resolves with no value. */
  function HandleReply(r: Reply): (res: Result<Option<Row>, Failure>)
    ensures r.status == 204 ==> res == Ok(None)
    ensures r.status != 204 ==>
      (res.Ok? <==> HandleResponse(r).Ok?) &&
      (res.Ok? ==> res.value == Some(HandleResponse(r).value)) &&
      (res.Err? ==> res.error == HandleResponse(r).error)
  {
    if r.status == 204 then Ok(None)
    else match HandleResponse(r)
      case Ok(body) => Ok(Some(body))
      case Err(e) => Err(e)
  }

  /** A delete call under the intended handling resolves exactly when the
      server answered 204 or another OK status with a JSON body. */
  function DeleteCall(t: Transport): (r: Result<(), Failure>)
    ensures r.Ok? <==> t.Delivered? && (t.reply.status == 204 || (IsOk(t.reply) && t.reply.json.Some?))
    ensures t.Aborted? ==> r == Err(Api(ApiError(Str("Request timeout"), Some(408), Undefined)))
  {
    match Fetch(t)
    case Err(e) => Err(e)
    case Ok(reply) => match HandleReply(reply)
      case Ok(_) => Ok(())
      case Err(e) => Err(e)
  }

  /** With no parameters the asset list is requested at `/api/api/assets?`. */
  lemma AssetsUrlWithoutParams()
    ensures "/api/api/" + "assets" + "?" + Serialize(DefinedParams([])) == "/api/api/assets?"
  {
  }
}
