/**
 * The decisions `AKAPIFetch.fetch` takes for one call, as pure functions: path
 * normalisation, content-type negotiation, payload serialisation, the cache key,
 * the write guard, request assembly and response interpretation, composed by
 * `Run` into the whole call.
 */
module AKAPI {
  import opened Wrappers
  import opened Text

  // ---------------------------------------------------------------------------
  // Constant tables of the class

  const ApiBase: string := "/rest/v1/"
  const FormUrlEncoded: string := "application/x-www-form-urlencoded"
  const ApplicationJson: string := "application/json"

  /** `read_only_methods` */
  const ReadOnlyMethods: seq<string> := ["GET", "HEAD", "OPTIONS", "TRACE"]

  /** The literal start of the one `read_safe` pattern, `^POST report/run/[a-zA-Z0-9_-]+/? `. */
  const ReadSafePrefix: string := "POST report/run/"

  /** `default_receive_for_status` */
  const DefaultReceiveForStatus: map<int, string> := map[
    200 := "json", 201 := "location", 202 := "status", 204 := "status",
    301 := "location", 302 := "location", 304 := "status",
    400 := "error", 401 := "error", 404 := "error", 405 := "error",
    429 := "error", 500 := "error", 503 := "error"]

  /** The receive modes that have an extraction. */
  const ReceiveModes: set<string> := {"json", "html", "text", "location", "status"}

  /** The prefix the catch block puts on every error thrown inside the `try`. */
  const ApiErrorPrefix: string := "AK API Error: "

  // ---------------------------------------------------------------------------
  // Data model

  /** A decoded JSON document, as `response.json()` yields it and as payload members hold it. */
  datatype Json =
    | JNull
    | JBool(b: bool)
    | JNumber(literal: string)
    | JString(s: string)
    | JArray(items: seq<Json>)
    | JObject(members: seq<(string, Json)>)

  /**
   * The `data` argument, by how `fetch` tests it: a falsy value (undefined, null,
   * false, 0, NaN), a string (the empty string is falsy too), a truthy value whose
   * `typeof` is neither string nor object, or an object (with or without own keys).
   * `Obj` records whether the object is an array, which the encoders tell apart
   * (`JSON.stringify` writes `["a"]` for `['a']` but `{"0":"a"}` for `{0: 'a'}`),
   * and its `Object.keys` entries, index keys for an array.
   * `Primitive` carries the `typeof` name the error message prints; `fetch` only
   * reaches that branch for "number", "boolean", "bigint", "symbol" or "function",
   * so `Primitive("string")` and `Primitive("object")` stand for no real argument.
   */
  datatype Data =
    | Falsy
    | Str(s: string)
    | Primitive(typeName: string)
    | Obj(isArray: bool, members: seq<(string, Json)>)

  /**
   * The library encoders and the body parser, left uninterpreted:
   * `new URLSearchParams(data).toString()` (which throws a TypeError for an
   * argument it cannot read as pairs, an array of plain values for one),
   * `JSON.stringify(data)` and `response.json()` (which yields a document or
   * rejects with a message).
   */
  datatype Codecs = Codecs(
    formEncode: (bool, seq<(string, Json)>) -> Result<string, string>,
    jsonStringify: (bool, seq<(string, Json)>) -> string,
    parseJson: string -> Result<Json, string>)

  /** The value of `data_string`: never assigned, `null`, or a string. */
  datatype DataString = Undefined | Null | Serialized(s: string)
  {
    /** How string concatenation renders it into the cache key. */
    function Render(): string
    {
      match this
      case Undefined => "undefined"
      case Null => "null"
      case Serialized(s) => s
    }

    /** JavaScript truthiness: only a non-empty string is truthy. */
    predicate Truthy()
    {
      Serialized? && s != ""
    }
  }

  /** What `fetch` reads of its `options` object; "" stands for an unset (or falsy) entry. */
  datatype OptionValues = OptionValues(cache: bool, content: string, receive: string)

  /** The options of a call made without an options object (`options || {}`). */
  const NoOptions: OptionValues := OptionValues(false, "", "")

  /**
   * The `fetch(request_path, request_params)` arguments. The CSRF header's value
   * comes from the cookie store, so only its presence is recorded. `noStore`
   * records the `'no-store'` key the code sets when caching is off; that key is
   * not a request option `fetch` reads (its option is `cache: 'no-store'`), so
   * the network is never actually told not to store.
   */
  datatype Request = Request(
    url: string,
    verb: string,
    noStore: bool,
    csrfToken: bool,
    acceptHtml: bool,
    contentType: Option<string>,
    body: Option<string>)

  /** What the network answers: a response, or a rejection of `fetch` itself. */
  datatype Response =
    | Answered(status: int, location: Option<string>, body: string)
    | NetworkFailure(message: string)

  /** The value a call resolves to, by receive mode. */
  datatype Received =
    | JsonDocument(doc: Json)
    | Body(text: string)
    | LocationHeader(location: Option<string>)
    | StatusCode(code: int)

  /** The errors a call can reject with. */
  datatype Error =
    | InvalidDataType(typeName: string)
    | InvalidContentType(contentType: string)
    | WritesNotEnabled
    | TransportFailure(message: string)
    | ResponseStatus(status: int, content: string)
    | InvalidReceiveMode(mode: string)
    | ApiError(inner: Error)
    | JsonParseError(message: string)
    | FormEncodeFailure(message: string)

  /** The error message each error carries. */
  function Message(e: Error): (m: string)
    ensures e.ApiError? ==> StartsWith(m, ApiErrorPrefix)
    ensures e.InvalidDataType? || e.InvalidContentType? || e.WritesNotEnabled? ==> StartsWith(m, "API ")
  {
    match e
    case InvalidDataType(t) => "API unepected data type: " + t
    case InvalidContentType(ct) => "API unexpected content-type: " + ct
    case WritesNotEnabled => "API Error: writes not enabled"
    case TransportFailure(message) => message
    case ResponseStatus(status, content) => "Response status: " + IntToDecimal(status) + " (" + content + ")"
    case InvalidReceiveMode(mode) => "API Error: unexpected option receive='" + mode + "'"
    case ApiError(inner) => ApiErrorPrefix + Message(inner)
    case JsonParseError(message) => message
    case FormEncodeFailure(message) => message
  }

  /** A "Response status" message names its status and its body text unambiguously. */
  lemma StatusMessageDeterminesStatus(s1: int, c1: string, s2: int, c2: string)
    requires Message(ResponseStatus(s1, c1)) == Message(ResponseStatus(s2, c2))
    ensures s1 == s2 && c1 == c2
  {
    var lead := "Response status: ";
    var d1, d2 := IntToDecimal(s1), IntToDecimal(s2);
    var m := Message(ResponseStatus(s1, c1));
    assert m == lead + d1 + " (" + c1 + ")";
    assert m == lead + d2 + " (" + c2 + ")";
    SpaceEndsDecimal(lead, d1, c1, d2, c2);
    SpaceEndsDecimal(lead, d2, c2, d1, c1);
    assert d1 == m[|lead|..|lead| + |d1|] == d2;
    IntToDecimalInjective(s1, s2);
    assert c1 == m[|lead| + |d1| + 2..|m| - 1] == c2;
  }

  /** The space after a rendered number cannot fall inside another rendered number. */
  lemma SpaceEndsDecimal(lead: string, d1: string, c1: string, d2: string, c2: string)
    requires forall k :: 0 <= k < |d2| ==> IsDigit(d2[k]) || d2[k] == '-'
    requires lead + d1 + " (" + c1 + ")" == lead + d2 + " (" + c2 + ")"
    ensures |d2| <= |d1|
  {
    RenderedLayout(lead, d1, c1);
    RenderedLayout(lead, d2, c2);
  }

  /** Where the pieces of a "Response status" message sit. */
  lemma RenderedLayout(lead: string, d: string, c: string)
    ensures |lead + d + " (" + c + ")"| == |lead| + |d| + |c| + 3
    ensures (lead + d + " (" + c + ")")[|lead| + |d|] == ' '
    ensures forall k :: 0 <= k < |d| ==> (lead + d + " (" + c + ")")[|lead| + k] == d[k]
  {
  }

  // ---------------------------------------------------------------------------
  // Identity: path normalisation and cache key

  /** Removes one leading `/rest/v1/`. */
  function StripBase(path: string): (p: string)
    ensures StartsWith(path, ApiBase) ==> ApiBase + p == path
    ensures !StartsWith(path, ApiBase) ==> p == path
  {
    if StartsWith(path, ApiBase) then path[|ApiBase|..] else path
  }

  /** The URL requested for a stripped path: the path itself when absolute or a URL, else under `/rest/v1/`. */
  function RequestPathFor(path: string): (url: string)
    ensures StartsWith(url, "/") || HasHttpScheme(url)
    ensures url == path || url == ApiBase + path
    ensures url == path <==> StartsWith(path, "/") || HasHttpScheme(path)
  {
    if StartsWith(path, "/") || HasHttpScheme(path) then path else ApiBase + path
  }

  /** `verb + ' ' + path + ' ' + data_string` */
  function CacheKey(verb: string, path: string, dataString: DataString): string
  {
    verb + " " + path + " " + dataString.Render()
  }

  /** A key is the verb and the path, each followed by a space, then the payload text. */
  lemma CacheKeyLayout(verb: string, path: string, dataString: DataString)
    ensures var key := CacheKey(verb, path, dataString);
      |key| == |verb| + |path| + 2 + |dataString.Render()| &&
      StartsWith(key, verb + " ") && key[|verb| + 1..|verb| + 1 + |path|] == path &&
      key[|verb| + 1 + |path|] == ' ' && key[|verb| + |path| + 2..] == dataString.Render()
  {
  }

  // ---------------------------------------------------------------------------
  // Payload: content type and serialisation

  /** The negotiated content type: GET or `urlencoded` force form encoding; otherwise the caller's value, raw, or JSON. */
  function ContentTypeFor(verb: string, content: string): (ct: string)
    ensures ct == FormUrlEncoded <==> verb == "GET" || content == "urlencoded" || content == FormUrlEncoded
    ensures ct == ApplicationJson <==> verb != "GET" && (content == "" || content == ApplicationJson)
    ensures ct != FormUrlEncoded && ct != ApplicationJson ==> ct == content
  {
    if verb == "GET" || content == "urlencoded" then FormUrlEncoded
    else if content != "" then content
    else ApplicationJson
  }

  /** Whether `data` is truthy in JavaScript. */
  predicate IsTruthy(data: Data)
  {
    !data.Falsy? && data != Str("")
  }

  /** `data_string` for a payload and content type, or the error thrown before any network activity. */
  function Serialize(data: Data, contentType: string, codecs: Codecs): (r: Result<DataString, Error>)
    ensures r == Ok(Undefined) <==> !IsTruthy(data)
    ensures r == Ok(Null) <==> data.Obj? && data.members == []
    ensures IsTruthy(data) && data.Str? ==> r == Ok(Serialized(data.s))
    ensures data.Primitive? ==> r == Err(InvalidDataType(data.typeName))
    ensures r.Err? <==> (data.Primitive? ||
      (data.Obj? && data.members != [] && contentType != FormUrlEncoded && contentType != ApplicationJson) ||
      (data.Obj? && data.members != [] && contentType == FormUrlEncoded && codecs.formEncode(data.isArray, data.members).Err?))
    ensures r.Err? ==> !r.error.ApiError?
    ensures data.Obj? && data.members != [] && contentType == FormUrlEncoded ==>
      r == match codecs.formEncode(data.isArray, data.members)
           case Ok(text) => Ok(Serialized(text))
           case Err(m) => Err(FormEncodeFailure(m))
    ensures data.Obj? && data.members != [] && contentType == ApplicationJson ==> r == Ok(Serialized(codecs.jsonStringify(data.isArray, data.members)))
    ensures data.Obj? && data.members != [] && contentType != FormUrlEncoded && contentType != ApplicationJson ==>
      r == Err(InvalidContentType(contentType))
  {
    if !IsTruthy(data) then Ok(Undefined)
    else match data
      case Str(s) => Ok(Serialized(s))
      case Primitive(t) => Err(InvalidDataType(t))
      case Obj(isArray, members) =>
        if members == [] then Ok(Null)
        else if contentType == FormUrlEncoded then
          match codecs.formEncode(isArray, members)
          case Ok(text) => Ok(Serialized(text))
          case Err(m) => Err(FormEncodeFailure(m))
        else if contentType == ApplicationJson then Ok(Serialized(codecs.jsonStringify(isArray, members)))
        else Err(InvalidContentType(contentType))
      case Falsy => Ok(Undefined)
  }

  /** Everything derived from a call's arguments before the cache is consulted. */
  datatype Prepared = Prepared(
    path: string,
    requestPath: string,
    contentType: string,
    dataString: DataString,
    key: string)

  /** Lines 48-74 of `fetch`: normalise, negotiate, serialise and build the key. */
  function Prepare(verb: string, path: string, data: Data, content: string, codecs: Codecs): (r: Result<Prepared, Error>)
    ensures r.Err? <==> Serialize(data, ContentTypeFor(verb, content), codecs).Err?
    ensures r.Err? ==> r.error == Serialize(data, ContentTypeFor(verb, content), codecs).error
    ensures r.Ok? ==> (r.value.contentType == ContentTypeFor(verb, content) &&
      r.value.dataString == Serialize(data, ContentTypeFor(verb, content), codecs).value)
    ensures r.Ok? ==> r.value.path == StripBase(path) && r.value.requestPath == RequestPathFor(StripBase(path))
    ensures r.Ok? ==> r.value.key == CacheKey(verb, StripBase(path), r.value.dataString)
  {
    var stripped := StripBase(path);
    var contentType := ContentTypeFor(verb, content);
    match Serialize(data, contentType, codecs)
    case Err(e) => Err(e)
    case Ok(ds) => Ok(Prepared(stripped, RequestPathFor(stripped), contentType, ds, CacheKey(verb, stripped, ds)))
  }

  // ---------------------------------------------------------------------------
  // Write guard

  /** `read_only_methods.includes(method)`: exactly the four verbs that do not change server state. */
  function IsReadOnly(verb: string): (readOnly: bool)
    ensures readOnly <==> verb == "GET" || verb == "HEAD" || verb == "OPTIONS" || verb == "TRACE"
  {
    verb in ReadOnlyMethods
  }

  /** The one read-safe pattern matches with `n` characters taken by `[a-zA-Z0-9_-]+`. */
  predicate ReadSafeMatchAt(rest: string, n: nat)
    requires n <= |rest|
  {
    1 <= n && AllIdChars(rest[..n]) &&
    n < |rest| && (rest[n] == ' ' || (rest[n] == '/' && n + 1 < |rest| && rest[n + 1] == ' '))
  }

  /** The key matches `^POST report/run/[a-zA-Z0-9_-]+/? `, stated as the regular expression reads. */
  predicate ReadSafePattern(key: string)
  {
    StartsWith(key, ReadSafePrefix) &&
    var rest := key[|ReadSafePrefix|..];
    exists n :: 0 <= n <= |rest| && ReadSafeMatchAt(rest, n)
  }

  /** The greedy match: the identifier run is maximal, then `/ ` or ` ` must follow. */
  predicate GreedyMatch(key: string)
  {
    StartsWith(key, ReadSafePrefix) &&
    var rest := key[|ReadSafePrefix|..];
    ReadSafeMatchAt(rest, IdRun(rest))
  }

  /** The greedy match decides exactly the regular expression. */
  lemma GreedyMatchIsPattern(key: string)
    ensures GreedyMatch(key) <==> ReadSafePattern(key)
  {
    if StartsWith(key, ReadSafePrefix) {
      var rest := key[|ReadSafePrefix|..];
      var k := IdRun(rest);
      if ReadSafePattern(key) {
        var n :| 0 <= n <= |rest| && ReadSafeMatchAt(rest, n);
        if n < k {
          IdCharAt(rest, k, n);
          assert false;
        } else if n > k {
          IdCharAt(rest, n, k);
          assert false;
        }
      }
    }
  }

  /** `read_safe.find(rs => rs.test(cache_key))` as a greedy matcher runs it, which is the regular expression. */
  function ReadSafe(key: string): (matched: bool)
    ensures matched <==> ReadSafePattern(key)
  {
    GreedyMatchIsPattern(key);
    GreedyMatch(key)
  }

  /** The guard at lines 91-97: the call throws "writes not enabled". */
  function WriteBlocked(allowWrites: bool, verb: string, key: string): (blocked: bool)
    ensures blocked <==> !allowWrites && verb !in ReadOnlyMethods && !ReadSafePattern(key)
  {
    !allowWrites && !IsReadOnly(verb) && !ReadSafe(key)
  }

  // ---------------------------------------------------------------------------
  // Request assembly

  /** `request_params` and the final `request_path`, lines 83-114. */
  function BuildRequest(verb: string, requestPath: string, dataString: DataString, contentType: string, opts: OptionValues): (req: Request)
    ensures req.verb == verb
    ensures req.noStore <==> !opts.cache
    ensures req.csrfToken <==> !IsReadOnly(verb)
    ensures req.acceptHtml <==> opts.receive == "html"
    ensures !dataString.Truthy() ==> req.url == requestPath && req.body.None? && req.contentType.None?
    ensures dataString.Truthy() && verb == "GET" ==>
      req.body.None? && req.contentType.None? &&
      req.url == requestPath + (if '?' in requestPath then "&" else "?") + dataString.s
    ensures dataString.Truthy() && verb != "GET" ==>
      req.url == requestPath && req.body == Some(dataString.s) && req.contentType == Some(contentType)
  {
    var withQuery := dataString.Truthy() && verb == "GET";
    var withBody := dataString.Truthy() && verb != "GET";
    Request(
      if withQuery then requestPath + (if '?' in requestPath then "&" else "?") + dataString.s else requestPath,
      verb,
      !opts.cache,
      !IsReadOnly(verb),
      opts.receive == "html",
      if withBody then Some(contentType) else None,
      if withBody then Some(dataString.s) else None)
  }

  // ---------------------------------------------------------------------------
  // Response interpretation

  /** `response.ok` */
  predicate IsOkStatus(status: int)
  {
    200 <= status <= 299
  }

  /** The receive mode for a status when the caller set none: the table entry, else `json`. */
  function DefaultReceive(status: int): (mode: string)
    ensures mode == "error" <==> status in {400, 401, 404, 405, 429, 500, 503}
    ensures IsOkStatus(status) ==> mode in ReceiveModes
    ensures IsOkStatus(status) ==>
      mode == (if status == 201 then "location" else if status == 202 || status == 204 then "status" else "json")
    ensures status !in DefaultReceiveForStatus ==> mode == "json"
  {
    if status in DefaultReceiveForStatus then DefaultReceiveForStatus[status] else "json"
  }

  /** The extraction for a receive mode from a successful response, lines 127-139. */
  function Interpret(status: int, location: Option<string>, body: string, mode: string, codecs: Codecs): (r: Result<Received, Error>)
    ensures r == Err(ApiError(InvalidReceiveMode(mode))) <==> mode !in ReceiveModes
    ensures r.Err? ==> r.error == ApiError(InvalidReceiveMode(mode)) || (mode == "json" && r.error.JsonParseError?)
    ensures mode == "json" ==> (r.Ok? <==> codecs.parseJson(body).Ok?)
    ensures r.Ok? && mode == "json" ==> r.value == JsonDocument(codecs.parseJson(body).value)
    ensures r.Err? && mode == "json" ==> r.error == JsonParseError(codecs.parseJson(body).error)
    ensures mode == "html" || mode == "text" ==> r == Ok(Body(body))
    ensures mode == "location" ==> r == Ok(LocationHeader(location))
    ensures mode == "status" ==> r == Ok(StatusCode(status))
  {
    if mode == "json" then
      match codecs.parseJson(body)
      case Ok(doc) => Ok(JsonDocument(doc))
      case Err(m) => Err(JsonParseError(m))
    else if mode == "html" || mode == "text" then Ok(Body(body))
    else if mode == "location" then Ok(LocationHeader(location))
    else if mode == "status" then Ok(StatusCode(status))
    else Err(ApiError(InvalidReceiveMode(mode)))
  }

  // ---------------------------------------------------------------------------
  // The whole call

  /**
   * The effect of one call: what it resolves or rejects with, the request it sent
   * (None when it never reached the network), the value left in `options.receive`,
   * and the cache entry the completion callback is meant to store.
   */
  datatype Call = Call(
    outcome: Result<Received, Error>,
    sent: Option<Request>,
    receiveAfter: string,
    store: Option<(string, Received)>)

  /** The cache after a completion stores its entry (or nothing). */
  function Store(cached: map<string, Received>, store: Option<(string, Received)>): (m: map<string, Received>)
    ensures store.None? ==> m == cached
    ensures store.Some? ==> store.value.0 in m && m[store.value.0] == store.value.1
    ensures store.Some? ==> forall k :: k in cached && k != store.value.0 ==> k in m && m[k] == cached[k]
    ensures store.Some? ==> m.Keys == cached.Keys + {store.value.0}
  {
    if store.Some? then cached[store.value.0 := store.value.1] else cached
  }

  /** Lines 116-165 once the request is sent: the exchange and its interpretation. */
  function Exchange(request: Request, key: string, opts: OptionValues, response: Response, codecs: Codecs): (r: Call)
    ensures r.sent == Some(request)
    ensures response.NetworkFailure? ==> r.outcome == Err(ApiError(TransportFailure(response.message)))
    ensures response.Answered? && !IsOkStatus(response.status) ==>
      r.outcome == Err(ApiError(ResponseStatus(response.status, response.body))) && r.receiveAfter == opts.receive
    ensures r.outcome.Err? ==> r.outcome.error.ApiError? || r.outcome.error.JsonParseError?
    ensures response.Answered? && IsOkStatus(response.status) ==>
      r.receiveAfter == (if opts.receive == "" then DefaultReceive(response.status) else opts.receive) &&
      r.outcome == Interpret(response.status, response.location, response.body, r.receiveAfter, codecs)
    ensures r.receiveAfter != opts.receive ==> opts.receive == "" && response.Answered? && IsOkStatus(response.status)
    ensures r.store.Some? <==> opts.cache && r.outcome.Ok?
    ensures r.store.Some? ==> r.store.value == (key, r.outcome.value)
  {
    match response
    case NetworkFailure(m) => Call(Err(ApiError(TransportFailure(m))), Some(request), opts.receive, None)
    case Answered(status, location, body) =>
      if !IsOkStatus(status) then
        Call(Err(ApiError(ResponseStatus(status, body))), Some(request), opts.receive, None)
      else
        var mode := if opts.receive == "" then DefaultReceive(status) else opts.receive;
        var outcome := Interpret(status, location, body, mode, codecs);
        Call(outcome, Some(request), mode, if opts.cache && outcome.Ok? then Some((key, outcome.value)) else None)
  }

  /** One call of `fetch(verb, path, data, options)` against the class state and the network's answer. */
  function Run(allowWrites: bool, cached: map<string, Received>, verb: string, path: string, data: Data,
               opts: OptionValues, response: Response, codecs: Codecs): (r: Call)
    // payload errors are thrown first, unprefixed, before the cache or the network
    ensures Prepare(verb, path, data, opts.content, codecs).Err? ==>
      r.outcome == Err(Prepare(verb, path, data, opts.content, codecs).error) && r.sent.None?
    // a cache hit returns the stored value, skips the guard and the network, and stores nothing
    ensures var p := Prepare(verb, path, data, opts.content, codecs);
      p.Ok? && opts.cache && p.value.key in cached ==>
        r.outcome == Ok(cached[p.value.key]) && r.sent.None? && r.store.None?
    // a prepared call that neither hits the cache nor is blocked goes over the network
    ensures var p := Prepare(verb, path, data, opts.content, codecs);
      p.Ok? && !(opts.cache && p.value.key in cached) && !WriteBlocked(allowWrites, verb, p.value.key) ==> r.sent.Some?
    // a transport failure rejects with the prefixed message
    ensures r.sent.Some? && response.NetworkFailure? ==> r.outcome == Err(ApiError(TransportFailure(response.message)))
    // the guard rejects exactly the blocked writes that were neither payload errors nor cache hits
    ensures var p := Prepare(verb, path, data, opts.content, codecs);
      r.outcome == Err(WritesNotEnabled) <==>
        p.Ok? && !(opts.cache && p.value.key in cached) && WriteBlocked(allowWrites, verb, p.value.key)
    // a blocked write never reaches the network
    ensures r.sent.Some? ==> var p := Prepare(verb, path, data, opts.content, codecs);
      p.Ok? && (allowWrites || IsReadOnly(verb) || ReadSafePattern(p.value.key)) &&
      r.sent.value == BuildRequest(verb, p.value.requestPath, p.value.dataString, p.value.contentType, opts)
    // a non-ok status always fails before any receive mode is chosen
    ensures r.sent.Some? && response.Answered? && !IsOkStatus(response.status) ==>
      r.outcome == Err(ApiError(ResponseStatus(response.status, response.body))) && r.receiveAfter == opts.receive
    // the mode defaults from the status table only when unset, and is written back
    ensures r.sent.Some? && response.Answered? && IsOkStatus(response.status) ==>
      r.receiveAfter == (if opts.receive == "" then DefaultReceive(response.status) else opts.receive) &&
      r.outcome == Interpret(response.status, response.location, response.body, r.receiveAfter, codecs)
    // the completion stores exactly the successes of cacheable calls that went over the network
    ensures r.store.Some? <==> r.sent.Some? && opts.cache && r.outcome.Ok?
    ensures r.store.Some? ==>
      r.store.value == (Prepare(verb, path, data, opts.content, codecs).value.key, r.outcome.value)
  {
    match Prepare(verb, path, data, opts.content, codecs)
    case Err(e) => Call(Err(e), None, opts.receive, None)
    case Ok(p) =>
      if opts.cache && p.key in cached then
        Call(Ok(cached[p.key]), None, opts.receive, None)
      else if WriteBlocked(allowWrites, verb, p.key) then
        Call(Err(WritesNotEnabled), None, opts.receive, None)
      else
        Exchange(BuildRequest(verb, p.requestPath, p.dataString, p.contentType, opts), p.key, opts, response, codecs)
  }

  // ---------------------------------------------------------------------------
  // Properties relating several calls

  /** Without the cache option every success went over the network. */
  lemma UncachedSuccessWasSent(allowWrites: bool, cached: map<string, Received>, verb: string, path: string, data: Data,
                               opts: OptionValues, response: Response, codecs: Codecs)
    ensures var r := Run(allowWrites, cached, verb, path, data, opts, response, codecs);
      !opts.cache && r.outcome.Ok? ==> r.sent.Some?
  {
  }

  /**
   * Failures before the request carry no prefix; failures inside the `try` carry
   * "AK API Error: ", except a JSON rejection, which the `try` returns unawaited.
   */
  lemma ErrorPrefixes(allowWrites: bool, cached: map<string, Received>, verb: string, path: string, data: Data,
                      opts: OptionValues, response: Response, codecs: Codecs)
    ensures var r := Run(allowWrites, cached, verb, path, data, opts, response, codecs);
      r.sent.None? && r.outcome.Err? ==> !r.outcome.error.ApiError?
    ensures var r := Run(allowWrites, cached, verb, path, data, opts, response, codecs);
      r.sent.Some? && r.outcome.Err? ==> r.outcome.error.ApiError? || r.outcome.error.JsonParseError?
  {
  }

  /**
   * `options.receive` changes only when it was unset and an ok response chose a
   * mode from the status table, and a mode so chosen never fails as unknown.
   */
  lemma ReceiveDefaulting(allowWrites: bool, cached: map<string, Received>, verb: string, path: string, data: Data,
                          opts: OptionValues, response: Response, codecs: Codecs)
    ensures var r := Run(allowWrites, cached, verb, path, data, opts, response, codecs);
      r.receiveAfter != opts.receive ==> opts.receive == "" && r.sent.Some? && response.Answered? && IsOkStatus(response.status)
    ensures var r := Run(allowWrites, cached, verb, path, data, opts, response, codecs);
      opts.receive == "" ==> r.outcome != Err(ApiError(InvalidReceiveMode("error")))
  {
  }

  /** The completion's store is an update at the call's key of exactly the cacheable successes sent over the network. */
  lemma StoreAtKey(allowWrites: bool, cached: map<string, Received>, verb: string, path: string, data: Data,
                   opts: OptionValues, response: Response, codecs: Codecs)
    ensures var r := Run(allowWrites, cached, verb, path, data, opts, response, codecs);
      var p := Prepare(verb, path, data, opts.content, codecs);
      Store(cached, r.store) ==
        if r.sent.Some? && opts.cache && r.outcome.Ok? then cached[p.value.key := r.outcome.value] else cached
  {
  }

  /** `"/rest/v1/x"` and `"x"` are the same call in every respect: request, key, outcome and state change. */
  lemma PrefixedPathIsSameCall(allowWrites: bool, cached: map<string, Received>, verb: string, x: string,
                               data: Data, opts: OptionValues, response: Response, codecs: Codecs)
    requires !StartsWith(x, ApiBase)
    ensures Run(allowWrites, cached, verb, ApiBase + x, data, opts, response, codecs)
         == Run(allowWrites, cached, verb, x, data, opts, response, codecs)
  {
    assert StartsWith(ApiBase + x, ApiBase);
    assert StripBase(ApiBase + x) == x;
  }

  /**
   * Once a cacheable call has stored its result, the same call (same verb, path,
   * data and content option) is answered from the cache, whatever the network
   * would now say and whatever receive mode is asked for.
   */
  lemma CacheRoundTrip(allowWrites: bool, cached: map<string, Received>, verb: string, path: string, data: Data,
                       opts: OptionValues, response: Response, later: OptionValues, laterResponse: Response,
                       codecs: Codecs)
    requires Run(allowWrites, cached, verb, path, data, opts, response, codecs).store.Some?
    requires later.cache && later.content == opts.content
    ensures var first := Run(allowWrites, cached, verb, path, data, opts, response, codecs);
      var second := Run(allowWrites, Store(cached, first.store), verb, path, data, later, laterResponse, codecs);
      second.outcome == first.outcome && second.sent.None? && second.store.None?
  {
    var first := Run(allowWrites, cached, verb, path, data, opts, response, codecs);
    var p := Prepare(verb, path, data, opts.content, codecs);
    assert first.store.value == (p.value.key, first.outcome.value);
  }

  /** The key keeps the rendered payload apart: for one verb and path, equal keys mean equal payload text. */
  lemma {:induction false} KeyDeterminesPayloadText(verb: string, path: string, d1: DataString, d2: DataString)
    requires CacheKey(verb, path, d1) == CacheKey(verb, path, d2)
    ensures d1.Render() == d2.Render()
  {
    var head := verb + " " + path + " ";
    assert CacheKey(verb, path, d1) == head + d1.Render();
    assert CacheKey(verb, path, d2) == head + d2.Render();
    assert d1.Render() == CacheKey(verb, path, d1)[|head|..];
    assert d2.Render() == CacheKey(verb, path, d2)[|head|..];
  }

  /**
   * Absent data and an empty object get different keys, but each collides with the
   * string payload that spells its rendering.
   */
  lemma KeyCollisions(verb: string, path: string)
    ensures CacheKey(verb, path, Undefined) != CacheKey(verb, path, Null)
    ensures CacheKey(verb, path, Serialized("null")) == CacheKey(verb, path, Null)
    ensures CacheKey(verb, path, Serialized("undefined")) == CacheKey(verb, path, Undefined)
  {
    if CacheKey(verb, path, Undefined) == CacheKey(verb, path, Null) {
      KeyDeterminesPayloadText(verb, path, Undefined, Null);
      assert false;
    }
  }

  /** A key made of the read-safe prefix, an identifier and a ` ` or `/ ` matches the pattern. */
  lemma {:induction false} ReadSafeKey(name: string, tail: string)
    requires name != [] && AllIdChars(name)
    requires StartsWith(tail, " ") || StartsWith(tail, "/ ")
    ensures ReadSafePattern(ReadSafePrefix + name + tail)
  {
    var key := ReadSafePrefix + name + tail;
    var rest := key[|ReadSafePrefix|..];
    assert rest == name + tail;
    assert rest[..|name|] == name;
    assert rest[|name|..] == tail;
    assert tail[..1] == [tail[0]];
    assert ReadSafeMatchAt(rest, |name|);
  }

  /** A `report/run/<name>` POST, with or without a trailing slash, stays allowed when writes are disabled. */
  lemma ReportRunIsReadSafe(name: string, trailingSlash: bool, dataString: DataString)
    requires name != [] && AllIdChars(name)
    ensures var path := "report/run/" + name + (if trailingSlash then "/" else "");
      !WriteBlocked(false, "POST", CacheKey("POST", path, dataString))
  {
    var slash := if trailingSlash then "/" else "";
    var tail := slash + " " + dataString.Render();
    ReportRunKey(name, slash, dataString);
    assert StartsWith(tail, " ") || StartsWith(tail, "/ ") by {
      if trailingSlash {
        assert tail[..2] == "/ ";
      } else {
        assert tail[..1] == " ";
      }
    }
    ReadSafeKey(name, tail);
  }

  lemma ReportRunKey(name: string, slash: string, dataString: DataString)
    ensures CacheKey("POST", "report/run/" + name + slash, dataString)
         == ReadSafePrefix + name + (slash + " " + dataString.Render())
  {
    var r := dataString.Render();
    assert "POST" + " " + ("report/run/" + name + slash) + " " + r
        == ("POST" + " " + "report/run/") + name + (slash + " " + r);
  }

  /** A write outside the exceptions, with writes disabled, is rejected before the network. */
  lemma PostItemsIsBlocked(cached: map<string, Received>, opts: OptionValues, response: Response, codecs: Codecs)
    requires !opts.cache
    requires opts.content == "" || opts.content == ApplicationJson
    ensures var r := Run(false, cached, "POST", "items", Obj(false, [("name", JString("x"))]), opts, response, codecs);
      r.outcome == Err(WritesNotEnabled) && r.sent.None?
  {
    assert !StartsWith("items", ApiBase) by {
      NotPrefixAt("items", ApiBase, 0);
    }
    var data := Obj(false, [("name", JString("x"))]);
    assert Serialize(data, ContentTypeFor("POST", opts.content), codecs) == Ok(Serialized(codecs.jsonStringify(data.isArray, data.members)));
    var key := CacheKey("POST", "items", Serialized(codecs.jsonStringify(data.isArray, data.members)));
    assert Prepare("POST", "items", data, opts.content, codecs).value.key == key;
    assert !StartsWith(key, ReadSafePrefix) by {
      NotPrefixAt(key, ReadSafePrefix, 5);
    }
    assert WriteBlocked(false, "POST", key);
  }

  /** The status table as the call sees it: 204 and 201 pick their modes; 301 and 404 fail as statuses. */
  lemma StatusTableAtRun(request: Request, key: string, opts: OptionValues, location: Option<string>,
                         body: string, codecs: Codecs)
    requires opts.receive == ""
    ensures Exchange(request, key, opts, Answered(204, location, body), codecs).outcome == Ok(StatusCode(204))
    ensures Exchange(request, key, opts, Answered(201, location, body), codecs).outcome == Ok(LocationHeader(location))
    ensures Exchange(request, key, opts, Answered(301, location, body), codecs).outcome == Err(ApiError(ResponseStatus(301, body)))
    ensures Exchange(request, key, opts, Answered(404, location, body), codecs).outcome == Err(ApiError(ResponseStatus(404, body)))
  {
  }
}
