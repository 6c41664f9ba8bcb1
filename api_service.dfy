/**
 * The browser-side API client (src/services/api-service.ts): how each request
 * is built (URL, headers, body) and how the response is classified. The
 * network call is not modelled: the response arrives as a value, already
 * parsed (`None` when its body is not JSON). The session token read from
 * local storage, `JSON.stringify` and the query-string encoder are parameters.
 */
module ApiService {
  import opened Wrappers
  import opened JsStrings
  import opened Misc

  /** A parsed JSON value; numbers are integers. */
  datatype Json =
    | JNull
    | JBool(b: bool)
    | JNumber(n: int)
    | JString(s: string)
    | JArray(items: seq<Json>)
    | JObject(fields: map<string, Json>)

  /** JavaScript truthiness of a parsed value. */
  predicate Truthy(j: Json) {
    match j
    case JNull => false
    case JBool(b) => b
    case JNumber(n) => n != 0
    case JString(s) => s != ""
    case JArray(_) => true
    case JObject(_) => true
  }

  /** `String(j)`, which `new Error(j)` applies to its argument; arrays join their items with commas. */
  function JsonText(j: Json): string
    decreases j, 1
  {
    match j
    case JNull => "null"
    case JBool(b) => if b then "true" else "false"
    case JNumber(n) => IntToString(n)
    case JString(s) => s
    case JArray(items) => ItemsText(j, 0)
    case JObject(_) => "[object Object]"
  }

  /** The comma-joined text of the array items from index `from` on; `null` items join as empty text. */
  function ItemsText(j: Json, from: nat): string
    requires j.JArray? && from <= |j.items|
    decreases j, 0, |j.items| - from
  {
    if from == |j.items| then ""
    else
      var item := j.items[from];
      var text := if item.JNull? then "" else JsonText(item);
      if from + 1 == |j.items| then text else text + "," + ItemsText(j, from + 1)
  }

  /** The envelope every successful backend response is expected to follow. */
  datatype StandardResponse = StandardResponse(
    success: bool, message: string, status: int, payload: Json, errors: Option<seq<Json>>)

  /** The JSON object the backend sends for an envelope. */
  function EnvelopeJson(r: StandardResponse): Json {
    var fields := map["success" := JBool(r.success), "message" := JString(r.message),
                      "status" := JNumber(r.status), "payload" := r.payload];
    JObject(if r.errors.Some? then fields["errors" := JArray(r.errors.value)] else fields)
  }

  /** `isStandardResponse`: a truthy object that has `success`, `message` and `status` keys. */
  predicate IsStandardResponse(data: Json)
    ensures IsStandardResponse(data) <==> data.JObject? && {"success", "message", "status"} <= data.fields.Keys
  {
    Truthy(data) && data.JObject? && "success" in data.fields && "message" in data.fields && "status" in data.fields
  }

  /** Every envelope the backend sends passes the shape check, with or without a payload; dropping any of the three required keys fails it. */
  lemma EnvelopeShape(r: StandardResponse, key: string)
    ensures IsStandardResponse(EnvelopeJson(r))
    ensures IsStandardResponse(JObject(EnvelopeJson(r).fields - {"payload"}))
    ensures key in {"success", "message", "status"} ==> !IsStandardResponse(JObject(EnvelopeJson(r).fields - {key}))
  {
  }

  /** What the backend answered: the ok flag, status line and the body parsed as JSON (`None` if it does not parse). */
  datatype Response = Response(ok: bool, status: nat, statusText: string, body: Option<Json>)

  /** What the client throws: an `Error` with a message, or the parser's error for a body that is not JSON. */
  datatype RequestError = Thrown(message: string) | InvalidJson

  const UNEXPECTED_FORMAT := "Unexpected response format"

  /** `errData?.message`: the `message` field of a parsed object body, if there is one. */
  function BodyMessage(body: Option<Json>): Option<Json> {
    if body.Some? && body.value.JObject? && "message" in body.value.fields
    then Some(body.value.fields["message"]) else None
  }

  /** The message thrown for a non-ok response: the body's message when truthy, else the status line. */
  function HttpErrorMessage(response: Response): (m: string)
    ensures BodyMessage(response.body).Some? && Truthy(BodyMessage(response.body).value) ==>
      m == JsonText(BodyMessage(response.body).value)
    ensures !(BodyMessage(response.body).Some? && Truthy(BodyMessage(response.body).value)) ==>
      "HTTP " <= m && ParseInt(m[5..]) == Some(response.status)
      && |m| == 7 + |NatToString(response.status)| + |response.statusText|
      && m[5 + |NatToString(response.status)|..] == ": " + response.statusText
  {
    var message := BodyMessage(response.body);
    if message.Some? && Truthy(message.value) then JsonText(message.value)
    else
      var digits := NatToString(response.status);
      var m := "HTTP " + IntToString(response.status) + ": " + response.statusText;
      assert m[5..] == digits + (": " + response.statusText);
      ParseIntOfDigits(digits, ": " + response.statusText);
      NatToStringRoundTrip(response.status);
      m
  }

  /** The outcome of `makeRequest` once the response is in. */
  function Classify(response: Response): (r: Result<Json, RequestError>)
    ensures r.Success? <==> response.ok && response.body.Some? && IsStandardResponse(response.body.value)
    ensures r.Success? ==> r.value == response.body.value
    ensures !response.ok ==> r == Failure(Thrown(HttpErrorMessage(response)))
    ensures response.ok && response.body.None? ==> r == Failure(InvalidJson)
    ensures response.ok && response.body.Some? && !IsStandardResponse(response.body.value) ==>
      r == Failure(Thrown(UNEXPECTED_FORMAT))
  {
    if !response.ok then Failure(Thrown(HttpErrorMessage(response)))
    else if response.body.None? then Failure(InvalidJson)
    else if !IsStandardResponse(response.body.value) then Failure(Thrown(UNEXPECTED_FORMAT))
    else Success(response.body.value)
  }

  type Headers = map<string, string>

  const BEARER := "Bearer "

  /** `localStorage.getItem("session") || ""`. */
  function SessionToken(session: Option<string>): string {
    if session.Some? then session.value else ""
  }

  /** `getHeaders`: the one default header, carrying the session token as a bearer credential. */
  function AuthHeaders(session: Option<string>): (h: Headers)
    ensures h.Keys == {"Authorization"}
    ensures BEARER <= h["Authorization"] && h["Authorization"][|BEARER|..] == SessionToken(session)
  {
    map["Authorization" := BEARER + SessionToken(session)]
  }

  /** `{...defaults, ...caller}`: every name from either side, with the caller's value where both have one. */
  function MergeHeaders(defaults: Headers, caller: Headers): (h: Headers)
    ensures h.Keys == defaults.Keys + caller.Keys
    ensures forall name :: name in caller ==> h[name] == caller[name]
    ensures forall name :: name in defaults && name !in caller ==> h[name] == defaults[name]
  {
    defaults + caller
  }

  datatype HttpMethod = GET | POST | PUT | DELETE

  datatype Body = NoBody | JsonBody(text: string) | Multipart(entries: seq<FormEntry>)

  /** The options a caller hands to `makeRequest`; an absent verb means GET to the transport. */
  datatype RequestInit = RequestInit(verb: Option<HttpMethod>, headers: Headers, body: Body)

  /** The request handed to the transport. */
  datatype Request = Request(url: string, verb: Option<HttpMethod>, headers: Headers, body: Body)

  const PROXY_BASE := "/api/proxy"
  const JSON_CONTENT := "application/json"
  const MULTIPART_CONTENT := "multipart/form-data"

  class Client {
    const baseUrl: string

    constructor ()
      ensures baseUrl == PROXY_BASE
    {
      baseUrl := PROXY_BASE;
    }

    /** `makeRequest`: targets the proxy, merges headers (caller wins), and classifies the response. */
    method MakeRequest(endpoint: string, options: RequestInit, session: Option<string>, response: Response)
      returns (sent: Request, outcome: Result<Json, RequestError>)
      ensures sent.url == baseUrl + endpoint
      ensures sent.verb == options.verb && sent.body == options.body
      ensures sent.headers == MergeHeaders(AuthHeaders(session), options.headers)
      ensures outcome == Classify(response)
    {
      sent := Request(baseUrl + endpoint, options.verb, MergeHeaders(AuthHeaders(session), options.headers), options.body);
      outcome := Classify(response);
    }

    /** The shared shape of `post` and `put`: a JSON string by default, FormData on request, with the matching content type. */
    method SendWithBody(verb: HttpMethod, endpoint: string, data: seq<Property>, useFormData: bool,
                        stringify: seq<Property> -> string, session: Option<string>, response: Response)
      returns (sent: Request, outcome: Result<Json, RequestError>)
      ensures sent.url == baseUrl + endpoint && sent.verb == Some(verb)
      ensures sent.body == if useFormData then Multipart(FormEntries(data)) else JsonBody(stringify(data))
      ensures sent.headers.Keys == {"Authorization", "Content-Type"}
      ensures sent.headers["Content-Type"] == if useFormData then MULTIPART_CONTENT else JSON_CONTENT
      ensures sent.headers["Authorization"] == BEARER + SessionToken(session)
      ensures outcome == Classify(response)
    {
      var body: Body;
      if useFormData {
        var entries := ConvertToFormData(data);
        body := Multipart(entries);
      } else {
        body := JsonBody(stringify(data));
      }
      var headers := if useFormData then map["Content-Type" := MULTIPART_CONTENT] else map["Content-Type" := JSON_CONTENT];
      sent, outcome := MakeRequest(endpoint, RequestInit(Some(verb), headers, body), session, response);
    }

    method Post(endpoint: string, data: seq<Property>, useFormData: bool,
                stringify: seq<Property> -> string, session: Option<string>, response: Response)
      returns (sent: Request, outcome: Result<Json, RequestError>)
      ensures sent.url == baseUrl + endpoint && sent.verb == Some(POST)
      ensures sent.body == if useFormData then Multipart(FormEntries(data)) else JsonBody(stringify(data))
      ensures sent.headers.Keys == {"Authorization", "Content-Type"}
      ensures sent.headers["Content-Type"] == if useFormData then MULTIPART_CONTENT else JSON_CONTENT
      ensures sent.headers["Authorization"] == BEARER + SessionToken(session)
      ensures outcome == Classify(response)
    {
      sent, outcome := SendWithBody(POST, endpoint, data, useFormData, stringify, session, response);
    }

    method Put(endpoint: string, data: seq<Property>, useFormData: bool,
               stringify: seq<Property> -> string, session: Option<string>, response: Response)
      returns (sent: Request, outcome: Result<Json, RequestError>)
      ensures sent.url == baseUrl + endpoint && sent.verb == Some(PUT)
      ensures sent.body == if useFormData then Multipart(FormEntries(data)) else JsonBody(stringify(data))
      ensures sent.headers.Keys == {"Authorization", "Content-Type"}
      ensures sent.headers["Content-Type"] == if useFormData then MULTIPART_CONTENT else JSON_CONTENT
      ensures sent.headers["Authorization"] == BEARER + SessionToken(session)
      ensures outcome == Classify(response)
    {
      sent, outcome := SendWithBody(PUT, endpoint, data, useFormData, stringify, session, response);
    }

    /** `get`: appends "?" and the encoded parameters only when parameters are given. */
    method Get(endpoint: string, params: Option<seq<(string, string)>>, encode: seq<(string, string)> -> string,
               session: Option<string>, response: Response)
      returns (sent: Request, outcome: Result<Json, RequestError>)
      ensures params.None? ==> sent.url == baseUrl + endpoint
      ensures params.Some? ==> sent.url == baseUrl + endpoint + "?" + encode(params.value)
      ensures sent.verb == Some(GET) && sent.body == NoBody && sent.headers == AuthHeaders(session)
      ensures outcome == Classify(response)
    {
      var finalEndpoint := endpoint;
      if params.Some? {
        var queryString := encode(params.value);
        finalEndpoint := finalEndpoint + "?" + queryString;
      }
      sent, outcome := MakeRequest(finalEndpoint, RequestInit(Some(GET), map[], NoBody), session, response);
    }

    /** `delete`: method DELETE, no body, only the default header. */
    method Delete(endpoint: string, session: Option<string>, response: Response)
      returns (sent: Request, outcome: Result<Json, RequestError>)
      ensures sent.url == baseUrl + endpoint
      ensures sent.verb == Some(DELETE) && sent.body == NoBody && sent.headers == AuthHeaders(session)
      ensures outcome == Classify(response)
    {
      sent, outcome := MakeRequest(endpoint, RequestInit(Some(DELETE), map[], NoBody), session, response);
    }
  }
}
