/** The API client of `src/lib/api.ts`: request headers, the classification
    of a fetched response into a value or an `ApiError`, the query of `get`,
    the body rule of `post`, and `authApi.logout`. The network is not
    modelled: what `fetch` produced is the input of the classification. */
module ApiClient {

  import opened Wrappers
  import opened Text
  import Browser

  /** A parsed JSON value. Numbers are integers in this model. */
  datatype Json =
    | JNull
    | JBool(b: bool)
    | JNum(n: int)
    | JStr(s: string)
    | JArr(items: seq<Json>)
    | JObj(fields: map<string, Json>)

  /** JavaScript truthiness of a parsed JSON value. */
  predicate Truthy(j: Json)
  {
    match j
    case JNull => false
    case JBool(b) => b
    case JNum(n) => n != 0
    case JStr(s) => s != ""
    case JArr(_) => true
    case JObj(_) => true
  }

  /** `String(j)`, which `new Error(j)` applies to a non-string message, or
      None where that conversion throws a `TypeError`. A parsed object with
      an own `toString` key has no callable `toString`, and neither its own
      `valueOf` key nor the inherited `valueOf` gives a primitive; an array
      fails when one of its elements does. */
  function JsString(j: Json): Option<string>
    decreases j, 1, 0
  {
    match j
    case JNull => Some("null")
    case JBool(b) => Some(if b then "true" else "false")
    case JNum(n) => Some(IntToString(n))
    case JStr(s) => Some(s)
    case JArr(items) => JoinFrom(items, 0)
    case JObj(fields) => if "toString" in fields then None else Some("[object Object]")
  }

  /** `Array.prototype.join(',')` from index `i`: null elements print as
      the empty string, and the first element that cannot be converted
      makes the whole join throw. */
  function JoinFrom(items: seq<Json>, i: nat): Option<string>
    requires i <= |items|
    decreases JArr(items), 0, |items| - i
  {
    if i == |items| then Some("")
    else
      var head := if items[i] == JNull then Some("") else JsString(items[i]);
      if head.None? then None
      else if i + 1 == |items| then head
      else
        var rest := JoinFrom(items, i + 1);
        if rest.None? then None else Some(head.value + "," + rest.value)
  }

  /** `isApiResponse`: a truthy object with a `data` key. */
  predicate IsEnvelope(j: Json)
  {
    Truthy(j) && j.JObj? && "data" in j.fields
  }

  // ---------------------------------------------------------------------
  // Headers (`getAuthToken`, `getAuthHeaders` and the merge in `apiRequest`)

  const ContentType := "Content-Type"
  const Authorization := "Authorization"
  const JsonMediaType := "application/json"

  /** `getAuthToken`: the stored `authToken`, or null. */
  function StoredToken(items: map<string, string>): (t: Option<string>)
    ensures t.Some? <==> Browser.AuthTokenKey in items
    ensures t.Some? ==> t.value == items[Browser.AuthTokenKey]
  {
    if Browser.AuthTokenKey in items then Some(items[Browser.AuthTokenKey]) else None
  }

  /** `getAuthHeaders` */
  function AuthHeaders(token: Option<string>): (h: map<string, string>)
    ensures ContentType in h && h[ContentType] == JsonMediaType
    ensures Authorization in h <==> token.Some? && token.value != ""
    ensures Authorization in h ==> h[Authorization] == "Bearer " + token.value
    ensures h.Keys <= {ContentType, Authorization}
  {
    map[ContentType := JsonMediaType]
      + (if token.Some? && token.value != "" then map[Authorization := "Bearer " + token.value] else map[])
  }

  /** The headers `apiRequest` sends: the default and auth headers, then the
      caller's headers spread over them. */
  function RequestHeaders(token: Option<string>, callerHeaders: map<string, string>): (h: map<string, string>)
    ensures h.Keys == AuthHeaders(token).Keys + callerHeaders.Keys
    ensures forall k :: k in callerHeaders ==> h[k] == callerHeaders[k]
    ensures forall k :: k in AuthHeaders(token) && k !in callerHeaders ==> h[k] == AuthHeaders(token)[k]
  {
    AuthHeaders(token) + callerHeaders
  }

  /** Without caller headers, a request carries `Authorization: Bearer
      <token>` exactly when the stored token is non-empty, and always
      `Content-Type: application/json`. */
  lemma AuthorizationIffToken(items: map<string, string>)
    ensures var h := RequestHeaders(StoredToken(items), map[]);
      && (Authorization in h <==> Browser.AuthTokenKey in items && items[Browser.AuthTokenKey] != "")
      && (Authorization in h ==> h[Authorization] == "Bearer " + items[Browser.AuthTokenKey])
      && h[ContentType] == JsonMediaType
  {
  }

  // ---------------------------------------------------------------------
  // Response classification (`apiRequest`)

  /** What a response body holds: JSON text, or text that does not parse. */
  datatype Body = JsonBody(value: Json) | NonJsonBody(text: string)

  datatype Response = Response(status: nat, statusText: string, body: Body)

  /** What `fetch` produced: a rejection with a `TypeError` (no response
      reached), or a response. */
  datatype FetchResult = NetworkFailure | Received(response: Response)

  /** The `data` an `ApiError` carries. `Opaque` stands for a value the
      model does not track (an exception's own text or object). */
  datatype ErrorData = NoData | JsonData(json: Json) | TextData(text: string) | Opaque

  datatype ApiError = ApiError(message: string, status: int, data: ErrorData)

  datatype ApiResult = Success(value: Json) | Failure(error: ApiError)

  const NetworkErrorMessage := "Network error or invalid URL"
  const UnexpectedErrorMessage := "An unexpected error occurred"

  /** `response.ok` */
  predicate IsOk(status: nat)
  {
    200 <= status <= 299
  }

  /** The default message of a non-2xx response. */
  function HttpErrorText(r: Response): string
  {
    "HTTP Error: " + NatToString(r.status) + " " + r.statusText
  }

  predicate HasTruthyMessage(d: Json)
  {
    d.JObj? && "message" in d.fields && Truthy(d.fields["message"])
  }

  /** The message chosen from a parsed, non-null error body, or None when
      its truthy `message` cannot be converted to text. */
  function MessageFromErrorBody(d: Json, fallback: string): Option<string>
    requires d != JNull
  {
    if HasTruthyMessage(d) then JsString(d.fields["message"])
    // an envelope reaching here has a falsy `message`, so its
    // `message || errorMessage` is the fallback as well
    else if IsEnvelope(d) then Some(fallback)
    else Some(fallback)
  }

  /** The body's truthy `message` cannot be converted to text, so
      `new ApiError(...)` itself throws a `TypeError`. */
  predicate UnprintableMessage(r: Response)
  {
    r.body.JsonBody? && HasTruthyMessage(r.body.value) && JsString(r.body.value.fields["message"]).None?
  }

  /** The error a non-2xx response yields, as evidently intended: the
      response's own status, with the body's message or the status line;
      a message that cannot be converted to text ends in the outer `catch`
      as a `TypeError`, with status 0. */
  function HttpError(r: Response): (e: ApiError)
    requires !IsOk(r.status)
  {
    match r.body
    case JsonBody(d) =>
      if d == JNull then ApiError(HttpErrorText(r), r.status, JsonData(d))
      else
        var m := MessageFromErrorBody(d, HttpErrorText(r));
        if m.Some? then ApiError(m.value, r.status, JsonData(d))
        else ApiError(NetworkErrorMessage, 0, Opaque)
    case NonJsonBody(t) => ApiError(HttpErrorText(r), r.status, TextData(t))
  }

  /** `apiRequest` from the moment `fetch` settles, with the non-2xx branch
      as evidently intended (see `ClassifyAsWritten`). */
  function Classify(f: FetchResult): (r: ApiResult)
    ensures f.NetworkFailure? ==> r == Failure(ApiError(NetworkErrorMessage, 0, Opaque))
    ensures r.Success? ==> f.Received? && IsOk(f.response.status)
  {
    match f
    case NetworkFailure => Failure(ApiError(NetworkErrorMessage, 0, Opaque))
    case Received(resp) =>
      if !IsOk(resp.status) then Failure(HttpError(resp))
      else if resp.status == 204 then Success(JObj(map[]))
      else
        match resp.body
        case NonJsonBody(_) => Failure(ApiError(UnexpectedErrorMessage, 500, Opaque))
        case JsonBody(j) => Success(if IsEnvelope(j) then j.fields["data"] else j)
  }

  /** `apiRequest` as written. In the non-2xx branch the first `json()` call
      consumes the body even when it fails to parse, so the fallback
      `text()` call rejects with a `TypeError`; reading `message` of a JSON
      `null` throws a `TypeError` first and ends the same way. The outer
      `catch` turns that `TypeError` into status 0. */
  function ClassifyAsWritten(f: FetchResult): (r: ApiResult)
    ensures r.Failure? <==> Classify(f).Failure?
  {
    if f.Received? && !IsOk(f.response.status) then
      match f.response.body
      case JsonBody(d) =>
        if d == JNull then Failure(ApiError(NetworkErrorMessage, 0, Opaque))
        else Failure(HttpError(f.response))
      case NonJsonBody(_) => Failure(ApiError(NetworkErrorMessage, 0, Opaque))
    else Classify(f)
  }

  /** A 500 response with an HTML body is reported as a network error with
      status 0 by the code as written, and with status 500 as intended. */
  lemma AsWrittenLosesStatus()
    ensures var f := Received(Response(500, "Internal Server Error", NonJsonBody("<html></html>")));
      && ClassifyAsWritten(f) == Failure(ApiError(NetworkErrorMessage, 0, Opaque))
      && Classify(f).error.status == 500
  {
  }

  /** As written, every non-2xx response whose body is not JSON loses its
      status. */
  lemma AsWrittenNonJsonErrorIsNetworkError(r: Response)
    requires !IsOk(r.status) && r.body.NonJsonBody?
    ensures ClassifyAsWritten(Received(r)) == Failure(ApiError(NetworkErrorMessage, 0, Opaque))
  {
  }

  /** A non-2xx response fails with its own status; the message is the
      body's truthy `message` when the body is a JSON object that has one,
      and `HTTP Error: <status> <statusText>` otherwise. The one exception
      is a `message` that cannot be converted to text: building the
      `ApiError` throws a `TypeError`, reported with status 0. */
  lemma NonOkFailsWithStatus(r: Response)
    requires !IsOk(r.status)
    ensures Classify(Received(r)).Failure?
    ensures !UnprintableMessage(r) ==> Classify(Received(r)).error.status == r.status
    ensures UnprintableMessage(r) ==> Classify(Received(r)).error == ApiError(NetworkErrorMessage, 0, Opaque)
    ensures r.body.JsonBody? && HasTruthyMessage(r.body.value) && !UnprintableMessage(r) ==>
      Classify(Received(r)).error.message == JsString(r.body.value.fields["message"]).value
    ensures !(r.body.JsonBody? && HasTruthyMessage(r.body.value)) ==>
      Classify(Received(r)).error.message == HttpErrorText(r)
  {
  }

  /** A 404 whose body is `{"message": {"toString": 1}}` is reported as a
      network error with status 0 by both readings, while a message object
      without its own `toString` prints as `[object Object]`. */
  lemma OwnToStringMessageIsNetworkError()
    ensures var bad := Response(404, "Not Found", JsonBody(JObj(map["message" := JObj(map["toString" := JNum(1)])])));
      && Classify(Received(bad)) == Failure(ApiError(NetworkErrorMessage, 0, Opaque))
      && ClassifyAsWritten(Received(bad)) == Classify(Received(bad))
    ensures var plain := Response(404, "Not Found", JsonBody(JObj(map["message" := JObj(map["code" := JNum(1)])])));
      Classify(Received(plain)).error == ApiError("[object Object]", 404, JsonData(plain.body.value))
  {
    var inner := JObj(map["toString" := JNum(1)]);
    assert JsString(inner) == None;
    var plainInner := JObj(map["code" := JNum(1)]);
    assert "toString" !in plainInner.fields;
  }

  /** The two readings agree on everything except non-2xx responses whose
      body is not a non-null JSON value. */
  lemma AsWrittenAgreesElsewhere(f: FetchResult)
    requires !(f.Received? && !IsOk(f.response.status)
               && (f.response.body.NonJsonBody? || f.response.body.value == JNull))
    ensures ClassifyAsWritten(f) == Classify(f)
  {
  }

  /** Status 204 gives an empty object whatever the body holds. */
  lemma NoContentIsEmptyObject(statusText: string, body: Body)
    ensures Classify(Received(Response(204, statusText, body))) == Success(JObj(map[]))
  {
  }

  /** A 2xx (non-204) JSON body is unwrapped exactly when it is a `{data}`
      envelope; any other JSON body is returned as it is. */
  lemma SuccessUnwrapsEnvelope(r: Response)
    requires IsOk(r.status) && r.status != 204 && r.body.JsonBody?
    ensures Classify(Received(r)).Success?
    ensures IsEnvelope(r.body.value) ==> Classify(Received(r)).value == r.body.value.fields["data"]
    ensures !IsEnvelope(r.body.value) ==> Classify(Received(r)).value == r.body.value
  {
  }

  /** Error normalisation: a result is a success only for a 2xx response
      that is 204 or parses; every failure is a network error (status 0),
      an unexpected error (status 500, for a 2xx body that does not parse)
      or carries the non-2xx status of the response. */
  lemma FailureKinds(f: FetchResult)
    ensures Classify(f).Success? <==>
      f.Received? && IsOk(f.response.status)
      && (f.response.status == 204 || f.response.body.JsonBody?)
    ensures Classify(f).Failure? ==>
      || Classify(f).error == ApiError(NetworkErrorMessage, 0, Opaque)
      || Classify(f).error == ApiError(UnexpectedErrorMessage, 500, Opaque)
      || (f.Received? && !IsOk(f.response.status) && Classify(f).error.status == f.response.status)
    ensures f.NetworkFailure? ==> Classify(f) == Failure(ApiError(NetworkErrorMessage, 0, Opaque))
  {
  }

  // ---------------------------------------------------------------------
  // `get` query parameters and the `post` body rule

  /** A query parameter value of `get`. */
  datatype ParamValue = Undefined | Null | PStr(s: string) | PNum(n: int) | PBool(b: bool)

  predicate IsDefined(v: ParamValue)
  {
    !v.Undefined? && !v.Null?
  }

  /** `value.toString()` */
  function ParamText(v: ParamValue): string
    requires IsDefined(v)
  {
    match v
    case PStr(s) => s
    case PNum(n) => IntToString(n)
    case PBool(b) => if b then "true" else "false"
  }

  /** What one entry of `params` contributes to the query. */
  function KeptEntry(entry: (string, ParamValue)): (kept: seq<(string, string)>)
  {
    if IsDefined(entry.1) then [(entry.0, ParamText(entry.1))] else []
  }

  /** The entries `get` appends to its `URLSearchParams`, in entry order. */
  function KeptParams(params: seq<(string, ParamValue)>): (kept: seq<(string, string)>)
    ensures |kept| <= |params|
  {
    if params == [] then [] else KeptEntry(params[0]) + KeptParams(params[1..])
  }

  /** Filtering distributes over concatenation, so the kept entries keep
      their relative order. */
  lemma {:induction false} KeptParamsAppend(a: seq<(string, ParamValue)>, b: seq<(string, ParamValue)>)
    ensures KeptParams(a + b) == KeptParams(a) + KeptParams(b)
  {
    if a == [] {
      assert a + b == b;
    } else {
      var ab := a + b;
      assert ab[0] == a[0] && ab[1..] == a[1..] + b;
      KeptParamsAppend(a[1..], b);
      calc {
        KeptParams(ab);
        KeptEntry(a[0]) + KeptParams(a[1..] + b);
        KeptEntry(a[0]) + (KeptParams(a[1..]) + KeptParams(b));
        (KeptEntry(a[0]) + KeptParams(a[1..])) + KeptParams(b);
      }
    }
  }

  /** An entry is kept exactly when its value is neither undefined nor null,
      and then it is kept with its key and its text. */
  lemma {:induction false} KeptParamsMembership(params: seq<(string, ParamValue)>, key: string, text: string)
    ensures (key, text) in KeptParams(params) <==>
      exists i :: 0 <= i < |params| && params[i].0 == key && IsDefined(params[i].1) && ParamText(params[i].1) == text
  {
    if params != [] {
      KeptParamsMembership(params[1..], key, text);
      if (key, text) in KeptParams(params[1..]) {
        var i :| 0 <= i < |params[1..]| && params[1..][i].0 == key && IsDefined(params[1..][i].1)
                 && ParamText(params[1..][i].1) == text;
        assert params[i + 1] == params[1..][i];
      }
      forall i | 1 <= i < |params| && params[i].0 == key && IsDefined(params[i].1) && ParamText(params[i].1) == text
        ensures (key, text) in KeptParams(params[1..])
      {
        assert params[1..][i - 1] == params[i];
      }
    }
  }

  /** Where `get` sends its request: the endpoint, and a query string (in
      this model, the list of its entries) whenever a params object is
      given, even if none of its entries survives. */
  datatype Target = Target(path: string, query: Option<seq<(string, string)>>)

  /** `get`: builds the query with a `forEach` over the entries of
      `params`. */
  method GetTarget(endpoint: string, params: Option<seq<(string, ParamValue)>>) returns (t: Target)
    ensures t.path == endpoint
    ensures t.query.Some? <==> params.Some?
    ensures params.Some? ==> t.query.value == KeptParams(params.value)
  {
    if params.None? {
      return Target(endpoint, None);
    }
    var entries := params.value;
    var search: seq<(string, string)> := [];
    var i := 0;
    while i < |entries|
      invariant 0 <= i <= |entries|
      invariant search == KeptParams(entries[..i])
    {
      var (key, value) := entries[i];
      if IsDefined(value) {
        search := search + [(key, ParamText(value))];
      }
      assert search == KeptParams(entries[..i]) + KeptEntry(entries[i]);
      KeptParamsAppend(entries[..i], [entries[i]]);
      assert entries[..i + 1] == entries[..i] + [entries[i]];
      i := i + 1;
    }
    assert entries[..i] == entries;
    t := Target(endpoint, Some(search));
  }

  /** `post`: `JSON.stringify(data)` is sent only when `data` is truthy. */
  function PostBody(data: Option<Json>): (body: Option<Json>)
    ensures body.Some? <==> data.Some? && Truthy(data.value)
    ensures body.Some? ==> body.value == data.value
  {
    if data.Some? && Truthy(data.value) then data else None
  }

  /** `authApi.logout`: removes the stored token and nothing else. */
  method AuthLogout(storage: Browser.LocalStorage)
    modifies storage
    ensures storage.items == old(storage.items) - {Browser.AuthTokenKey}
  {
    storage.RemoveItem(Browser.AuthTokenKey);
  }
}
