/**
 * The transport helper that every resource module extends (`BaseApi`): the
 * constructor's key check and base-URL default, the request handed to
 * `fetch`, the classification of the response, the shaping of errors, and
 * the query-string builder. `fetch` itself is a parameter: a function from
 * the request to what the network settles to.
 */
module Transport {
  import opened Wrappers
  import opened Js
  import opened Query

  const DefaultBaseUrl := "https://api.docmason.com/api/v1"
  const MissingKeyMessage := "API key is required"
  const NetworkErrorMessage := "Network error occurred"

  /** `{ baseUrl: <production URL>, ...config }`. */
  function WithDefaults(config: Object): (r: Object)
    ensures HasKey(r, "baseUrl")
    ensures Lookup(r, "baseUrl") ==
      if HasKey(config, "baseUrl") then Lookup(config, "baseUrl") else Str(DefaultBaseUrl)
    ensures forall k :: k != "baseUrl" ==> Lookup(r, k) == Lookup(config, k)
  {
    var defaults: Object := [("baseUrl", Str(DefaultBaseUrl))];
    assert Keys(defaults) == ["baseUrl"];
    forall k | k != "baseUrl" ensures Lookup(defaults, k) == Undefined {
      LookupMissing(defaults, k);
    }
    forall k | !HasKey(config, k) ensures Lookup(config, k) == Undefined {
      LookupMissing(config, k);
    }
    Spread(defaults, config)
  }

  /**
   * What the constructor stores, or the error it throws: the caller's object
   * over the default base URL, accepted only when its `apiKey` is truthy.
   */
  function Configure(config: Object): (r: Result<Object, string>)
    ensures r.Success? <==> Truthy(Lookup(config, "apiKey"))
    ensures r.Failure? ==> r.error == MissingKeyMessage
    ensures r.Success? ==> HasKey(r.value, "baseUrl")
    ensures r.Success? ==> (Lookup(r.value, "baseUrl") ==
      if HasKey(config, "baseUrl") then Lookup(config, "baseUrl") else Str(DefaultBaseUrl))
    ensures r.Success? ==> forall k :: k != "baseUrl" ==> Lookup(r.value, k) == Lookup(config, k)
  {
    var defaulted := WithDefaults(config);
    if Truthy(Lookup(defaulted, "apiKey")) then Success(defaulted) else Failure(MissingKeyMessage)
  }

  /** A request body: `JSON.stringify(value)`, or bytes sent as they are. */
  datatype Body = JsonText(value: Value) | Binary(bytes: seq<byte>)

  /** The options a resource operation passes: method, header overrides and body. */
  datatype RequestInit = RequestInit(verb: string, headers: Option<Object>, body: Option<Body>)

  /** What a resource operation asks the transport for: an endpoint (path and query) and options. */
  datatype Call = Call(endpoint: string, init: RequestInit)

  /** What is handed to `fetch`: the URL and the options with the merged headers. */
  datatype HttpRequest = HttpRequest(url: string, verb: string, headers: Object, body: Option<Body>)

  function BearerOf(config: Object): Value
  {
    Str("Bearer " + ToString(Lookup(config, "apiKey")))
  }

  function DefaultHeaders(config: Object): Object
  {
    [("Authorization", BearerOf(config)), ("Content-Type", Str("application/json"))]
  }

  /** `options.headers || {}`. */
  function Overrides(init: RequestInit): Object
  {
    match init.headers
    case None => []
    case Some(h) => h
  }

  /**
   * The request `makeRequest` hands to `fetch`: the base URL followed by the
   * endpoint, and the two default headers with the caller's headers laid over
   * them (a caller key spelled exactly like a default replaces it, even with
   * `undefined`).
   */
  function BuildRequest(config: Object, endpoint: string, init: RequestInit): (r: HttpRequest)
    ensures r.url == ToString(Lookup(config, "baseUrl")) + endpoint
    ensures r.verb == init.verb && r.body == init.body
    ensures |r.headers| >= 2 && Keys(r.headers)[0] == "Authorization" && Keys(r.headers)[1] == "Content-Type"
    ensures forall k :: HasKey(r.headers, k) <==>
      k == "Authorization" || k == "Content-Type" || HasKey(Overrides(init), k)
    ensures forall k :: (Lookup(r.headers, k) ==
      if HasKey(Overrides(init), k) then Lookup(Overrides(init), k)
      else if k == "Authorization" then BearerOf(config)
      else if k == "Content-Type" then Str("application/json")
      else Undefined)
  {
    HeadersOrder(config, Overrides(init));
    HeadersLookup(config, Overrides(init));
    HttpRequest(ToString(Lookup(config, "baseUrl")) + endpoint, init.verb,
                Spread(DefaultHeaders(config), Overrides(init)), init.body)
  }

  /** The two defaults come first, in this order, whatever the caller's headers are. */
  lemma HeadersOrder(config: Object, overrides: Object)
    ensures |Spread(DefaultHeaders(config), overrides)| >= 2
    ensures Keys(Spread(DefaultHeaders(config), overrides))[0] == "Authorization"
    ensures Keys(Spread(DefaultHeaders(config), overrides))[1] == "Content-Type"
  {
    var defaults := DefaultHeaders(config);
    assert Keys(defaults) == ["Authorization", "Content-Type"];
    var merged := Spread(defaults, overrides);
    assert |Keys(merged)| == |merged|;
  }

  /** A caller's header wins over a default of exactly the same spelling. */
  lemma HeadersLookup(config: Object, overrides: Object)
    ensures forall k :: HasKey(Spread(DefaultHeaders(config), overrides), k) <==>
      k == "Authorization" || k == "Content-Type" || HasKey(overrides, k)
    ensures forall k :: (Lookup(Spread(DefaultHeaders(config), overrides), k) ==
      if HasKey(overrides, k) then Lookup(overrides, k)
      else if k == "Authorization" then BearerOf(config)
      else if k == "Content-Type" then Str("application/json")
      else Undefined)
  {
    var defaults := DefaultHeaders(config);
    var merged := Spread(defaults, overrides);
    assert Keys(defaults) == ["Authorization", "Content-Type"];
    assert Lookup(defaults, "Authorization") == BearerOf(config);
    assert "Authorization"[0] != "Content-Type"[0];
    assert Lookup(defaults, "Content-Type") == Lookup(defaults[1..], "Content-Type") == Str("application/json");
    forall k ensures (Lookup(merged, k) ==
      if HasKey(overrides, k) then Lookup(overrides, k)
      else if k == "Authorization" then BearerOf(config)
      else if k == "Content-Type" then Str("application/json")
      else Undefined)
    {
      if !HasKey(overrides, k) && k != "Authorization" && k != "Content-Type" {
        LookupMissing(defaults, k);
      }
    }
  }

  /** What `response.json()` settles to: the parsed value, or the parser's error message. */
  datatype JsonParse = Parsed(value: Value) | SyntaxError(message: string)

  /** The three readings of a response body: `json()`, `text()` and `arrayBuffer()`. */
  datatype ResponseBody = ResponseBody(json: JsonParse, text: string, bytes: seq<byte>)

  /**
   * What `fetch` settles to: a response, or a rejection, of which only the
   * `message` (here `reason`) and `status` (here `code`) properties matter.
   */
  datatype FetchResult =
    | Response(status: nat, statusText: string, contentType: Option<string>, body: ResponseBody)
    | FetchError(reason: Value, code: Value)

  /** The error value the client throws. */
  datatype ApiError = ApiError(message: Value, status: nat, errors: Option<seq<Value>>)

  /** What the outer `catch` receives: the client's own `ApiError`, or any other thrown value. */
  datatype Thrown = Raised(error: ApiError) | Foreign(message: Value, status: Value)

  datatype Payload = JsonPayload(value: Value) | TextPayload(text: string) | BytesPayload(bytes: seq<byte>)

  /**
   * How a call settles: a payload, a thrown value, or the rejection of the
   * body parse that the success path returns without awaiting it.
   */
  datatype Outcome =
    | Resolved(payload: Payload)
    | Threw(thrown: Thrown)
    | ParseRejected(message: string)

  /** `response.ok`. */
  predicate IsOk(status: nat)
  {
    200 <= status <= 299
  }

  function StatusLine(status: nat, statusText: string): string
  {
    "HTTP " + NatToString(status) + ": " + statusText
  }

  /**
   * The error built for a response that is not ok: start from the status
   * line; if the body parses to a value whose `errors` is an array, attach the
   * array (when non-empty) and prefer its first element's `msg`; otherwise
   * prefer the body's `message`. Reading `errors` from a `null` body throws
   * inside the inner `try`, which keeps the status line.
   */
  function ShapeError(status: nat, statusText: string, json: JsonParse): (e: ApiError)
    ensures e.status == status && Truthy(e.message)
    ensures json.SyntaxError? ==> e == ApiError(Str(StatusLine(status, statusText)), status, None)
    ensures json.Parsed? && json.value.Obj? && Lookup(json.value.props, "errors").Arr? ==>
      var items := Lookup(json.value.props, "errors").items;
      && e.errors == (if items == [] then None else Some(items))
      && (items != [] && Truthy(OptionalGet(items[0], "msg")) ==> e.message == OptionalGet(items[0], "msg"))
      && (items == [] || !Truthy(OptionalGet(items[0], "msg")) ==> e.message == Str(StatusLine(status, statusText)))
    ensures json.Parsed? && json.value.Obj? && !Lookup(json.value.props, "errors").Arr? ==>
      && e.errors == None
      && e.message == Or(Lookup(json.value.props, "message"), Str(StatusLine(status, statusText)))
    ensures json.Parsed? && !json.value.Obj? ==> e == ApiError(Str(StatusLine(status, statusText)), status, None)
  {
    var errorMessage := Str(StatusLine(status, statusText));
    match json
    case SyntaxError(_) => ApiError(errorMessage, status, None)
    case Parsed(errorData) =>
      match GetProp(errorData, "errors")
      case None => ApiError(errorMessage, status, None)
      case Some(errs) =>
        if Truthy(errs) && errs.Arr? then
          var first := if |errs.items| > 0 then errs.items[0] else Undefined;
          ApiError(Or(OptionalGet(first, "msg"), errorMessage), status,
                   if |errs.items| > 0 then Some(errs.items) else None)
        else
          ApiError(Or(OptionalGet(errorData, "message"), errorMessage), status, None)
  }

  function ThrownMessage(t: Thrown): Value
  {
    match t
    case Raised(e) => e.message
    case Foreign(m, _) => m
  }

  function ThrownStatus(t: Thrown): Value
  {
    match t
    case Raised(e) => Num(e.status)
    case Foreign(_, s) => s
  }

  /**
   * The outer `catch`: a value whose `message` and `status` are both truthy
   * is rethrown as it is; anything else becomes a status-0 error without
   * `errors`.
   */
  function Catch(t: Thrown): Outcome
  {
    if Truthy(ThrownMessage(t)) && Truthy(ThrownStatus(t)) then Threw(t)
    else Threw(Raised(ApiError(Or(ThrownMessage(t), Str(NetworkErrorMessage)), 0, None)))
  }

  function FromJson(json: JsonParse): Outcome
  {
    match json
    case Parsed(v) => Resolved(JsonPayload(v))
    case SyntaxError(m) => ParseRejected(m)
  }

  /** `contentType?.includes(kind)`: false when the header is missing. */
  predicate Declares(contentType: Option<string>, kind: string)
  {
    contentType.Some? && Includes(contentType.value, kind)
  }

  /**
   * The success path: JSON, then text, then raw bytes for PDF or generic
   * binary, in that order; anything else, a missing header included, is
   * parsed as JSON. A parse failure is the unawaited rejection, never an
   * `ApiError`.
   */
  function Classify(contentType: Option<string>, body: ResponseBody): (o: Outcome)
    ensures o.Resolved? || o.ParseRejected?
    ensures o.ParseRejected? ==> body.json == SyntaxError(o.message)
    ensures Declares(contentType, "application/json") ==> o == FromJson(body.json)
    ensures !Declares(contentType, "application/json") && Declares(contentType, "text/") ==>
      o == Resolved(TextPayload(body.text))
    ensures (!Declares(contentType, "application/json") && !Declares(contentType, "text/") &&
      (Declares(contentType, "application/pdf") || Declares(contentType, "application/octet-stream"))) ==>
      o == Resolved(BytesPayload(body.bytes))
    ensures (!Declares(contentType, "application/json") && !Declares(contentType, "text/") &&
      !Declares(contentType, "application/pdf") && !Declares(contentType, "application/octet-stream")) ==>
      o == FromJson(body.json)
  {
    if Declares(contentType, "application/json") then FromJson(body.json)
    else if Declares(contentType, "text/") then Resolved(TextPayload(body.text))
    else if Declares(contentType, "application/pdf") || Declares(contentType, "application/octet-stream") then
      Resolved(BytesPayload(body.bytes))
    else FromJson(body.json)
  }

  /**
   * `makeRequest` once `fetch` has settled: the `try` block (error shaping
   * for a response that is not ok, classification for one that is) and the
   * outer `catch`.
   */
  function Settle(fetched: FetchResult): (o: Outcome)
    ensures fetched.Response? && IsOk(fetched.status) ==> o == Classify(fetched.contentType, fetched.body)
    ensures fetched.Response? && !IsOk(fetched.status) && fetched.status != 0 ==>
      o == Threw(Raised(ShapeError(fetched.status, fetched.statusText, fetched.body.json)))
    ensures fetched.Response? && !IsOk(fetched.status) && fetched.status == 0 ==>
      o == Threw(Raised(ApiError(ShapeError(0, fetched.statusText, fetched.body.json).message, 0, None)))
    ensures fetched.FetchError? ==> o.Threw?
    ensures fetched.FetchError? && Truthy(fetched.reason) && Truthy(fetched.code) ==>
      o == Threw(Foreign(fetched.reason, fetched.code))
    ensures fetched.FetchError? && !(Truthy(fetched.reason) && Truthy(fetched.code)) ==>
      o == Threw(Raised(ApiError(Or(fetched.reason, Str(NetworkErrorMessage)), 0, None)))
    ensures o.Threw? && o.thrown.Raised? && o.thrown.error.status != 0 ==>
      fetched.Response? && !IsOk(fetched.status) && o.thrown.error.status == fetched.status
    ensures o.ParseRejected? ==> fetched.Response? && IsOk(fetched.status) && fetched.body.json.SyntaxError?
  {
    match fetched
    case FetchError(m, s) => Catch(Foreign(m, s))
    case Response(status, statusText, contentType, body) =>
      if !IsOk(status) then Catch(Raised(ShapeError(status, statusText, body.json)))
      else Classify(contentType, body)
  }

  predicate Nullish(v: Value)
  {
    v.Undefined? || v.Null?
  }

  /** The entries `buildQueryParams` appends: those whose value is neither undefined nor null, stringified. */
  function Kept(params: Props): seq<(string, string)>
  {
    if params == [] then []
    else
      var last := params[|params| - 1];
      Kept(params[..|params| - 1]) + (if Nullish(last.1) then [] else [(last.0, ToString(last.1))])
  }

  /** Every entry whose value is set is kept, stringified, in order: `""`, `0` and `false` included. */
  lemma {:induction false} KeptAllSet(params: Props)
    requires forall i :: 0 <= i < |params| ==> !Nullish(params[i].1)
    ensures Kept(params) == seq(|params|, i requires 0 <= i < |params| => (params[i].0, ToString(params[i].1)))
  {
    if params != [] {
      KeptAllSet(params[..|params| - 1]);
    }
  }

  /** `buildQueryParams(params)` as a value. */
  function QueryString(params: Props): string
  {
    Serialize(Kept(params))
  }

  /**
   * Kept works entry by entry: the entries of a concatenation are those of
   * its parts, in order (so an entry's fate depends on its own value alone).
   */
  lemma {:induction false} KeptAppend(a: Props, b: Props)
    ensures Kept(a + b) == Kept(a) + Kept(b)
  {
    if b != [] {
      var n := |b| - 1;
      assert (a + b)[..|a + b| - 1] == a + b[..n];
      KeptAppend(a, b[..n]);
    } else {
      assert a + b == a;
    }
  }

  /** The entry appended last is kept, stringified, exactly when its value is neither undefined nor null. */
  lemma KeptSnoc(front: Props, key: string, value: Value)
    ensures Kept(front + [(key, value)]) == Kept(front) + if Nullish(value) then [] else [(key, ToString(value))]
  {
    assert (front + [(key, value)])[..|front|] == front;
  }

  /** A single entry is kept, stringified, exactly when its value is neither undefined nor null. */
  lemma KeptOne(key: string, value: Value)
    ensures Kept([(key, value)]) == if Nullish(value) then [] else [(key, ToString(value))]
  {
    assert [(key, value)][..0] == [];
  }

  /**
   * Parsing the query string `buildQueryParams` produces gives back the kept
   * entries, form-encoded, in order; the query string never holds a `?`.
   */
  lemma QueryStringRoundTrip(params: Props)
    ensures QueryPairs(QueryString(params)) == Encoded(Kept(params))
    ensures '?' !in QueryString(params)
  {
    QueryPairsOfSerialize(Kept(params));
  }

  /** The endpoint `` `${path}?${this.buildQueryParams(params)}` ``. */
  function WithQuery(path: string, params: Props): string
  {
    path + "?" + QueryString(params)
  }

  /** An endpoint with a query reads back as its path and its kept entries, form-encoded. */
  lemma EndpointTarget(path: string, params: Props)
    requires '?' !in path
    ensures Target(WithQuery(path, params)) == (path, Encoded(Kept(params)))
  {
    TargetWithQuery(path, Kept(params));
  }

  /** The query naming one record: `{ [key]: id }`. */
  function ByKey(key: string, id: string): Props
  {
    [(key, Str(id))]
  }

  lemma ByKeyTarget(path: string, key: string, id: string)
    requires '?' !in path
    ensures Target(WithQuery(path, ByKey(key, id))) == (path, Encoded([(key, id)]))
  {
    EndpointTarget(path, ByKey(key, id));
    KeptOne(key, Str(id));
  }

  /** A query of two strings, in this order: `{ [key1]: value1, [key2]: value2 }`. */
  function TwoKeys(key1: string, value1: string, key2: string, value2: string): Props
  {
    [(key1, Str(value1)), (key2, Str(value2))]
  }

  lemma TwoKeysTarget(path: string, key1: string, value1: string, key2: string, value2: string)
    requires '?' !in path
    ensures Target(WithQuery(path, TwoKeys(key1, value1, key2, value2))) ==
      (path, Encoded([(key1, value1), (key2, value2)]))
  {
    EndpointTarget(path, TwoKeys(key1, value1, key2, value2));
    TwoKeysKept(key1, value1, key2, value2);
  }

  lemma TwoKeysKept(key1: string, value1: string, key2: string, value2: string)
    ensures Kept(TwoKeys(key1, value1, key2, value2)) == [(key1, value1), (key2, value2)]
  {
    KeptOne(key1, Str(value1));
    KeptSnoc([(key1, Str(value1))], key2, Str(value2));
    assert [(key1, Str(value1))] + [(key2, Str(value2))] == TwoKeys(key1, value1, key2, value2);
  }

  /**
   * The query of a `list` operation: the leading entries, `from`, `to`, and
   * then the name under `nameKey` only when it is given and non-empty.
   */
  function PageQuery(lead: Props, from: int, to: int, nameKey: string, name: Option<string>): Props
  {
    var queryParams := lead + [("from", Num(from)), ("to", Num(to))];
    if name.Some? && Truthy(Str(name.value)) then queryParams + [(nameKey, Str(name.value))]
    else queryParams
  }

  /** The entries a `list` query contributes, after the leading ones. */
  function PageEntries(from: int, to: int, nameKey: string, name: Option<string>): seq<(string, string)>
  {
    [("from", IntToString(from)), ("to", IntToString(to))] +
    (if name.Some? && name.value != "" then [(nameKey, name.value)] else [])
  }

  lemma PageQueryTarget(path: string, lead: Props, from: int, to: int, nameKey: string, name: Option<string>)
    requires '?' !in path
    ensures Target(WithQuery(path, PageQuery(lead, from, to, nameKey, name))) ==
      (path, Encoded(Kept(lead) + PageEntries(from, to, nameKey, name)))
  {
    EndpointTarget(path, PageQuery(lead, from, to, nameKey, name));
    PageKept(lead, from, to, nameKey, name);
  }

  lemma PageKept(lead: Props, from: int, to: int, nameKey: string, name: Option<string>)
    ensures Kept(PageQuery(lead, from, to, nameKey, name)) == Kept(lead) + PageEntries(from, to, nameKey, name)
  {
    var withFrom := lead + [("from", Num(from))];
    var bounds := lead + [("from", Num(from)), ("to", Num(to))];
    assert withFrom + [("to", Num(to))] == bounds;
    KeptSnoc(lead, "from", Num(from));
    KeptSnoc(withFrom, "to", Num(to));
    assert Kept(bounds) == Kept(lead) + [("from", IntToString(from)), ("to", IntToString(to))];
    if name.Some? && name.value != "" {
      KeptSnoc(bounds, nameKey, Str(name.value));
    }
  }

  /** A successful JSON response resolves to the parsed value itself. */
  lemma JsonRoundTrip(v: Value, status: nat, statusText: string, text: string, bytes: seq<byte>)
    requires IsOk(status)
    ensures Settle(Response(status, statusText, Some("application/json"), ResponseBody(Parsed(v), text, bytes)))
      == Resolved(JsonPayload(v))
  {
    assert Includes("application/json", "application/json");
  }

  /** A successful PDF response resolves to exactly the bytes received. */
  lemma PdfRoundTrip(bytes: seq<byte>, status: nat, statusText: string, json: JsonParse, text: string)
    requires IsOk(status)
    ensures Settle(Response(status, statusText, Some("application/pdf"), ResponseBody(json, text, bytes)))
      == Resolved(BytesPayload(bytes))
  {
    PdfContentType();
  }

  /** `application/pdf` names neither JSON nor text, and names PDF. */
  lemma PdfContentType()
    ensures !Declares(Some("application/pdf"), "application/json")
    ensures !Declares(Some("application/pdf"), "text/")
    ensures Declares(Some("application/pdf"), "application/pdf")
  {
    PdfLacks();
    assert "application/json"[12] == 'j';
    IncludesNeeds("application/pdf", "application/json", 'j');
    assert "text/"[2] == 'x';
    IncludesNeeds("application/pdf", "text/", 'x');
    assert Includes("application/pdf", "application/pdf");
  }

  lemma PdfLacks()
    ensures 'j' !in "application/pdf" && 'x' !in "application/pdf"
  {
  }

  /** A 422 whose body lists one error surfaces that error's `msg`, the status and the list. */
  lemma ValidationErrorExample()
    ensures var item := Obj([("msg", Str("bad name"))]);
      Settle(Response(422, "Unprocessable Entity", Some("application/json"),
                      ResponseBody(Parsed(Obj([("errors", Arr([item]))])), "", [])))
      == Threw(Raised(ApiError(Str("bad name"), 422, Some([item]))))
  {
    assert NatToString(422) == "422";
  }

  /** A 500 whose body is not JSON surfaces the status line. */
  lemma ServerErrorExample(text: string, bytes: seq<byte>)
    ensures Settle(Response(500, "Internal Server Error", Some("text/html"),
                            ResponseBody(SyntaxError("Unexpected token <"), text, bytes)))
      == Threw(Raised(ApiError(Str("HTTP 500: Internal Server Error"), 500, None)))
  {
    ServerErrorLine();
  }

  lemma ServerErrorLine()
    ensures StatusLine(500, "Internal Server Error") == "HTTP 500: Internal Server Error"
  {
    FiveHundred();
  }

  lemma FiveHundred()
    ensures NatToString(500) == "500"
  {
    assert NatToString(50) == "50";
  }

  /** A rejected `fetch` surfaces the transport's message with status 0. */
  lemma NetworkFailureExample()
    ensures Settle(FetchError(Str("Failed to fetch"), Undefined))
      == Threw(Raised(ApiError(Str("Failed to fetch"), 0, None)))
    ensures Settle(FetchError(Str(""), Undefined))
      == Threw(Raised(ApiError(Str(NetworkErrorMessage), 0, None)))
  {
  }

  /**
   * Status 0 on the client's own error means no response arrived, unless the
   * response itself carried status 0; every other status is that of a
   * response that was not ok.
   */
  lemma StatusMeansResponse(fetched: FetchResult)
    requires Settle(fetched).Threw? && Settle(fetched).thrown.Raised?
    ensures Settle(fetched).thrown.error.status == 0 ==>
      fetched.FetchError? || (fetched.Response? && fetched.status == 0)
    ensures Settle(fetched).thrown.error.status != 0 ==>
      fetched.Response? && !IsOk(fetched.status) && Settle(fetched).thrown.error.status == fetched.status
  {
  }

  /** The object every resource module extends: the resolved configuration and the two helpers. */
  class BaseApi {
    var config: Object

    /** The state the constructor leaves once its check passed. */
    constructor Adopt(resolved: Object)
      ensures config == resolved
    {
      config := resolved;
    }

    /** `new BaseApi(config)`: the defaulted copy of the caller's object, or the thrown key error. */
    static method New(config: Object) returns (r: Result<BaseApi, string>)
      ensures r.Success? <==> Truthy(Lookup(config, "apiKey"))
      ensures r.Failure? ==> r.error == MissingKeyMessage
      ensures r.Success? ==> fresh(r.value) && r.value.config == WithDefaults(config)
    {
      var resolved := Configure(config);
      if resolved.Failure? {
        return Failure(resolved.error);
      }
      var api := new BaseApi.Adopt(resolved.value);
      return Success(api);
    }

    /** `makeRequest(endpoint, options)`: the request is built from the current configuration. */
    method MakeRequest(endpoint: string, init: RequestInit, fetch: HttpRequest -> FetchResult)
      returns (outcome: Outcome)
      ensures outcome == Settle(fetch(BuildRequest(config, endpoint, init)))
    {
      var request := BuildRequest(config, endpoint, init);
      var response := fetch(request);
      outcome := Settle(response);
    }

    /** `buildQueryParams(params)`: appends the entries one by one, then serializes them. */
    method BuildQueryParams(params: Props) returns (query: string)
      ensures query == Serialize(Kept(params))
    {
      var appended: seq<(string, string)> := [];
      var i := 0;
      while i < |params|
        invariant 0 <= i <= |params|
        invariant appended == Kept(params[..i])
      {
        var (key, value) := params[i];
        if !Nullish(value) {
          appended := appended + [(key, ToString(value))];
        }
        i := i + 1;
        assert params[..i][..i - 1] == params[..i - 1];
      }
      assert params[..|params|] == params;
      query := Serialize(appended);
    }
  }
}
