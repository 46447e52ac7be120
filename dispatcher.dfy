/**
 * The `AKAPIFetch` class: its mutable state (`allow_writes`, `cached_requests`,
 * `request_counter`), `fetch` as written and as its completion callback intends,
 * and the method and option wrappers.
 */
module Dispatcher {
  import opened Wrappers
  import opened AKAPI
  import opened Text

  /** A caller's `options` object; `fetch` writes the defaulted receive mode back into it. */
  class Options {
    var cache: bool
    var content: string
    var receive: string

    constructor (cache: bool, content: string, receive: string)
      ensures Values() == OptionValues(cache, content, receive)
    {
      this.cache := cache;
      this.content := content;
      this.receive := receive;
    }

    function Values(): OptionValues
      reads this
    {
      OptionValues(cache, content, receive)
    }
  }

  /** What `fetch` reads of `options || {}`. */
  function Snapshot(options: Options?): (opts: OptionValues)
    reads options
    ensures options == null ==> opts == NoOptions
  {
    if options == null then NoOptions else options.Values()
  }

  /** Lines 48-74: normalise the path, negotiate the content type, serialise the payload and build the key. */
  method PrepareArguments(verb: string, path: string, data: Data, content: string, codecs: Codecs)
    returns (r: Result<Prepared, Error>)
    ensures r == Prepare(verb, path, data, content, codecs)
  {
    var stripped := path;
    if StartsWith(path, ApiBase) {
      stripped := path[|ApiBase|..];
    }
    var requestPath := RequestPathFor(stripped);
    var contentType := ContentTypeFor(verb, content);
    var serialized := Serialize(data, contentType, codecs);
    if serialized.Err? {
      return Err(serialized.error);
    }
    var dataString := serialized.value;
    var key := CacheKey(verb, stripped, dataString);
    return Ok(Prepared(stripped, requestPath, contentType, dataString, key));
  }

  /** Lines 83-114 past the guard: `request_params` gains its headers, and the payload goes to the query or the body. */
  method AssembleRequest(verb: string, requestPath: string, dataString: DataString, contentType: string,
                         opts: OptionValues)
    returns (request: Request)
    ensures request == BuildRequest(verb, requestPath, dataString, contentType, opts)
  {
    request := Request(requestPath, verb, false, false, false, None, None);
    if !opts.cache {
      request := request.(noStore := true);
    }
    if !IsReadOnly(verb) {
      request := request.(csrfToken := true);
    }
    if opts.receive == "html" {
      request := request.(acceptHtml := true);
    }
    if dataString.Truthy() {
      if verb == "GET" {
        request := request.(url := request.url + (if '?' in request.url then "&" else "?") + dataString.s);
      } else {
        request := request.(body := Some(dataString.s), contentType := Some(contentType));
      }
    }
  }

  /**
   * The `try` block once the request is built: await the response, fail on a
   * non-ok status, default the receive mode into the caller's options, extract.
   */
  method AwaitResponse(request: Request, key: string, opts: OptionValues, options: Options?,
                       response: Response, codecs: Codecs)
    returns (outcome: Result<Received, Error>)
    requires options != null ==> options.Values() == opts
    modifies options
    ensures outcome == Exchange(request, key, opts, response, codecs).outcome
    ensures options != null ==> options.Values() == opts.(receive := Exchange(request, key, opts, response, codecs).receiveAfter)
  {
    if response.NetworkFailure? {
      return Err(ApiError(TransportFailure(response.message)));
    }
    if !IsOkStatus(response.status) {
      return Err(ApiError(ResponseStatus(response.status, response.body)));
    }
    var mode := opts.receive;
    if mode == "" {
      mode := DefaultReceive(response.status);
      if options != null {
        options.receive := mode;
      }
    }
    outcome := Interpret(response.status, response.location, response.body, mode, codecs);
  }

  class AKAPIFetch {
    var allowWrites: bool
    var cachedRequests: map<string, Received>
    var requestCounter: nat

    /** The class's static initial state. */
    constructor ()
      ensures allowWrites && cachedRequests == map[] && requestCounter == 0
    {
      allowWrites := true;
      cachedRequests := map[];
      requestCounter := 0;
    }

    /** One call took effect as `Run` says, against the state before it, and counted itself. */
    twostate predicate Performed(verb: string, path: string, data: Data, opts: OptionValues,
                                 response: Response, codecs: Codecs,
                                 new outcome: Result<Received, Error>, new sent: Option<Request>)
      reads this
    {
      var r := Run(old(allowWrites), old(cachedRequests), verb, path, data, opts, response, codecs);
      && outcome == r.outcome
      && sent == r.sent
      && allowWrites == old(allowWrites)
      && requestCounter == old(requestCounter) + 1
    }

    /** A caller's options object holds afterwards the receive mode the call left in it, and nothing else changed in it. */
    twostate predicate ReceiveWrittenBack(verb: string, path: string, data: Data, options: Options?,
                                          response: Response, codecs: Codecs)
      reads this, options
    {
      options != null ==>
        options.Values() ==
        old(options.Values()).(receive := Run(old(allowWrites), old(cachedRequests), verb, path, data,
                                              old(Snapshot(options)), response, codecs).receiveAfter)
    }

    /** The cache holds afterwards what the call's completion stores into it. */
    twostate predicate Stored(verb: string, path: string, data: Data, opts: OptionValues,
                              response: Response, codecs: Codecs)
      reads this
    {
      cachedRequests == Store(old(cachedRequests), Run(old(allowWrites), old(cachedRequests), verb, path, data,
                                                       opts, response, codecs).store)
    }

    /**
     * `fetch` as written. The completion callback's store into `cached_requests`
     * runs with `this` undefined (a plain function in strict code), throws inside a
     * detached promise, and leaves the map as it was.
     */
    method FetchAsWritten(verb: string, path: string, data: Data, options: Options?,
                          response: Response, codecs: Codecs)
      returns (outcome: Result<Received, Error>, sent: Option<Request>)
      modifies this, options
      ensures Performed(verb, path, data, old(Snapshot(options)), response, codecs, outcome, sent)
      ensures cachedRequests == old(cachedRequests)
      ensures ReceiveWrittenBack(verb, path, data, options, response, codecs)
    {
      requestCounter := requestCounter + 1;
      var opts := Snapshot(options);
      ghost var r := Run(allowWrites, cachedRequests, verb, path, data, opts, response, codecs);
      var prepared := PrepareArguments(verb, path, data, opts.content, codecs);
      if prepared.Err? {
        assert r == Call(Err(prepared.error), None, opts.receive, None);
        return Err(prepared.error), None;
      }
      var key := prepared.value.key;
      if opts.cache && key in cachedRequests {
        assert r == Call(Ok(cachedRequests[key]), None, opts.receive, None);
        return Ok(cachedRequests[key]), None;
      }
      if !allowWrites && !IsReadOnly(verb) && !ReadSafe(key) {
        assert r == Call(Err(WritesNotEnabled), None, opts.receive, None);
        return Err(WritesNotEnabled), None;
      }
      var request := AssembleRequest(verb, prepared.value.requestPath, prepared.value.dataString,
                                     prepared.value.contentType, opts);
      assert r == Exchange(request, key, opts, response, codecs);
      sent := Some(request);
      outcome := AwaitResponse(request, key, opts, options, response, codecs);
      // line 146: the completion callback's store throws, so `cachedRequests` keeps its value
    }

    /** `fetch` with the completion callback storing each successful cacheable result, as it is meant to. */
    method Fetch(verb: string, path: string, data: Data, options: Options?,
                 response: Response, codecs: Codecs)
      returns (outcome: Result<Received, Error>, sent: Option<Request>)
      modifies this, options
      ensures Performed(verb, path, data, old(Snapshot(options)), response, codecs, outcome, sent)
      ensures Stored(verb, path, data, old(Snapshot(options)), response, codecs)
      ensures ReceiveWrittenBack(verb, path, data, options, response, codecs)
    {
      var opts := Snapshot(options);
      var prepared := Prepare(verb, path, data, opts.content, codecs);
      StoreAtKey(allowWrites, cachedRequests, verb, path, data, opts, response, codecs);
      outcome, sent := FetchAsWritten(verb, path, data, options, response, codecs);
      if sent.Some? && opts.cache && outcome.Ok? {
        cachedRequests := cachedRequests[prepared.value.key := outcome.value];
      }
    }

    /** `get(path, data, options)` */
    method Get(path: string, data: Data, options: Options?, response: Response, codecs: Codecs)
      returns (outcome: Result<Received, Error>, sent: Option<Request>)
      modifies this, options
      ensures Performed("GET", path, data, old(Snapshot(options)), response, codecs, outcome, sent)
      ensures Stored("GET", path, data, old(Snapshot(options)), response, codecs)
      ensures ReceiveWrittenBack("GET", path, data, options, response, codecs)
    {
      outcome, sent := Fetch("GET", path, data, options, response, codecs);
    }

    /** `post(path, data, options)` */
    method Post(path: string, data: Data, options: Options?, response: Response, codecs: Codecs)
      returns (outcome: Result<Received, Error>, sent: Option<Request>)
      modifies this, options
      ensures Performed("POST", path, data, old(Snapshot(options)), response, codecs, outcome, sent)
      ensures Stored("POST", path, data, old(Snapshot(options)), response, codecs)
      ensures ReceiveWrittenBack("POST", path, data, options, response, codecs)
    {
      outcome, sent := Fetch("POST", path, data, options, response, codecs);
    }

    /** `put(path, data, options)` */
    method Put(path: string, data: Data, options: Options?, response: Response, codecs: Codecs)
      returns (outcome: Result<Received, Error>, sent: Option<Request>)
      modifies this, options
      ensures Performed("PUT", path, data, old(Snapshot(options)), response, codecs, outcome, sent)
      ensures Stored("PUT", path, data, old(Snapshot(options)), response, codecs)
      ensures ReceiveWrittenBack("PUT", path, data, options, response, codecs)
    {
      outcome, sent := Fetch("PUT", path, data, options, response, codecs);
    }

    /** `patch(path, data, options)` */
    method Patch(path: string, data: Data, options: Options?, response: Response, codecs: Codecs)
      returns (outcome: Result<Received, Error>, sent: Option<Request>)
      modifies this, options
      ensures Performed("PATCH", path, data, old(Snapshot(options)), response, codecs, outcome, sent)
      ensures Stored("PATCH", path, data, old(Snapshot(options)), response, codecs)
      ensures ReceiveWrittenBack("PATCH", path, data, options, response, codecs)
    {
      outcome, sent := Fetch("PATCH", path, data, options, response, codecs);
    }

    /** `delete(path, data, options)` */
    method Delete(path: string, data: Data, options: Options?, response: Response, codecs: Codecs)
      returns (outcome: Result<Received, Error>, sent: Option<Request>)
      modifies this, options
      ensures Performed("DELETE", path, data, old(Snapshot(options)), response, codecs, outcome, sent)
      ensures Stored("DELETE", path, data, old(Snapshot(options)), response, codecs)
      ensures ReceiveWrittenBack("DELETE", path, data, options, response, codecs)
    {
      outcome, sent := Fetch("DELETE", path, data, options, response, codecs);
    }

    /** `get_cached(path, data)`: a GET with a fresh `{ cache: true }`. */
    method GetCached(path: string, data: Data, response: Response, codecs: Codecs)
      returns (outcome: Result<Received, Error>, sent: Option<Request>)
      modifies this
      ensures Performed("GET", path, data, OptionValues(true, "", ""), response, codecs, outcome, sent)
      ensures Stored("GET", path, data, OptionValues(true, "", ""), response, codecs)
    {
      var options := new Options(true, "", "");
      outcome, sent := Fetch("GET", path, data, options, response, codecs);
    }

    /** `get_html(path, data)`: a GET with a fresh `{ receive: 'html' }`. */
    method GetHtml(path: string, data: Data, response: Response, codecs: Codecs)
      returns (outcome: Result<Received, Error>, sent: Option<Request>)
      modifies this
      ensures Performed("GET", path, data, OptionValues(false, "", "html"), response, codecs, outcome, sent)
      ensures cachedRequests == old(cachedRequests)
    {
      var options := new Options(false, "", "html");
      outcome, sent := Fetch("GET", path, data, options, response, codecs);
    }

    /** `post_html(path, data)`: a POST with a fresh `{ receive: 'html' }`. */
    method PostHtml(path: string, data: Data, response: Response, codecs: Codecs)
      returns (outcome: Result<Received, Error>, sent: Option<Request>)
      modifies this
      ensures Performed("POST", path, data, OptionValues(false, "", "html"), response, codecs, outcome, sent)
      ensures cachedRequests == old(cachedRequests)
    {
      var options := new Options(false, "", "html");
      outcome, sent := Fetch("POST", path, data, options, response, codecs);
    }
  }

  // ---------------------------------------------------------------------------
  // Scenarios over a fresh dispatcher

  /** As written, `get_cached` twice on a fresh dispatcher goes to the network both times: the cache never fills. */
  method RepeatedCachedGetAsWritten(path: string, response: Response, later: Response, codecs: Codecs)
    returns (first: Option<Request>, second: Option<Request>)
    ensures first.Some? && second.Some?
    ensures first == second
  {
    var api := new AKAPIFetch();
    var options := new Options(true, "", "");
    var outcome1, outcome2;
    outcome1, first := api.FetchAsWritten("GET", path, Falsy, options, response, codecs);
    options := new Options(true, "", "");
    outcome2, second := api.FetchAsWritten("GET", path, Falsy, options, later, codecs);
  }

  /**
   * With the store in place, a second `get_cached` of a call that succeeded is
   * answered from the cache. The statuses are those whose default mode cannot fail,
   * and the payload is one that form encoding accepts.
   */
  method RepeatedCachedGet(path: string, data: Data, status: int, location: Option<string>, body: string,
                           later: Response, codecs: Codecs)
    returns (first: Result<Received, Error>, second: Result<Received, Error>, secondSent: Option<Request>)
    requires status in {201, 202, 204}
    requires !data.Primitive?
    requires data.Obj? ==> codecs.formEncode(data.isArray, data.members).Ok?
    ensures first.Ok? && second == first && secondSent.None?
  {
    var response := Answered(status, location, body);
    ghost var opts := OptionValues(true, "", "");
    assert Serialize(data, FormUrlEncoded, codecs).Ok?;
    assert Prepare("GET", path, data, "", codecs).Ok?;
    assert DefaultReceive(status) in {"location", "status"};
    ghost var r := Run(true, map[], "GET", path, data, opts, response, codecs);
    assert r.store.Some?;
    CacheRoundTrip(true, map[], "GET", path, data, opts, response, opts, later, codecs);
    var api := new AKAPIFetch();
    var sent;
    first, sent := api.GetCached(path, data, response, codecs);
    assert api.allowWrites && api.cachedRequests == Store(map[], r.store);
    second, secondSent := api.GetCached(path, data, later, codecs);
  }

  /**
   * An options object reused across calls keeps the mode the first response
   * defaulted it to: after a 201 the next call returns the Location header even
   * for a 200 that would otherwise be parsed as JSON.
   */
  method ReusedOptions(path: string, firstLocation: Option<string>, firstBody: string,
                       location: Option<string>, body: string, codecs: Codecs)
    returns (first: Result<Received, Error>, second: Result<Received, Error>)
    ensures first == Ok(LocationHeader(firstLocation))
    ensures second == Ok(LocationHeader(location))
  {
    var api := new AKAPIFetch();
    var options := new Options(false, "", "");
    var sent;
    first, sent := api.Get(path, Falsy, options, Answered(201, firstLocation, firstBody), codecs);
    assert options.receive == "location";
    second, sent := api.Get(path, Falsy, options, Answered(200, location, body), codecs);
  }
}
