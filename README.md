# AKAPIFetch request dispatcher, modelled in Dafny

`akapi-fetch.js` is the client an ActionKit admin dashboard uses to call the
ActionKit REST API. Every call goes through `AKAPIFetch.fetch(method, path, data, options)`.
It does these steps in order:

1. Strip a leading `/rest/v1/` from the path, then re-attach it unless the path is absolute or mentions `http:`/`https:`.
2. Pick the content type.
3. Serialise the payload.
4. Build the cache key `method + ' ' + path + ' ' + data_string`.
5. Answer from `cached_requests` when `options.cache` is set and the key is known.
6. Reject writes when `allow_writes` is off, unless the key matches the `report/run` exception.
7. Build the request (no-store flag, CSRF and Accept headers, query string or body).
8. Send it, fail on any non-ok status, and pick a receive mode from the caller or the status table.
9. Extract the result, and wrap failures inside the `try` with `AK API Error: `.

The project has four modules:

- `Wrappers` (`wrappers.dfy`): `Option` and `Result`.
- `Text` (`text.dfy`): string helpers. These are `startsWith`, the unanchored `/https?:/` search, the greedy `[a-zA-Z0-9_-]+` run and the decimal rendering of a status.
- `AKAPI` (`akapi.dfy`): the constant tables, the data model and each decision as a pure function. `Run` composes the decisions into one whole call. Properties that relate several calls are lemmas.
- `Dispatcher` (`dispatcher.dfy`): the stateful part.
  - The class `AKAPIFetch` has the fields `allowWrites`, `cachedRequests` and `requestCounter`.
  - The class `Options` is the caller's options object. `fetch` writes the defaulted receive mode back into it.
  - `FetchAsWritten` is `fetch` as the code behaves. `Fetch` is `fetch` with the cache store the code intends (see Findings).
  - The method and option wrappers are call sites of `Fetch`.
  - Three scenario methods run over a fresh dispatcher.

Some parts are outside the model and appear as parameters instead:

- The network's answer is an input `Response`: a status, a `Location` header and a body, or a rejection of `fetch` itself.
- The encoders `URLSearchParams(...).toString()` and `JSON.stringify` are fields of a `Codecs` record. The form encoder may fail, as `URLSearchParams` throws a TypeError for an argument it cannot read as pairs. So is the body parser `response.json()`, which may reject with a message. The model never looks inside these functions.
- An unset or falsy `options.content` / `options.receive` is the empty string. The code's `||` and `!` treat those cases the same way.

Points where the code's behaviour is easy to misread:

- The cache lookup comes before the write guard (akapi-fetch.js:75 before :91). So once a write's result is in the cache, a cacheable repeat of it is answered even when writes are off. This needs the store of `Fetch`: as written, the cache never fills (see Findings).
- The key is built from the stripped path, not the path as given. Absent data renders as `undefined`, an empty object as `null`, and the empty string counts as absent.
- `content: 'json'` is not understood as JSON. On a call other than GET it passes through raw as the content type, and a non-empty object then fails with "API unexpected content-type: json".
- A 301 or 302 response fails as a non-ok status like any other status outside 200–299. Only the four 2xx entries of the status table can ever be used.
- A JSON parse failure is not prefixed with `AK API Error: `. The `try` block returns `response.json()` without awaiting it, so the rejection happens after the `catch` has been left. A rejection of the network call itself is prefixed.

## Model

| member | source | states |
|---|---|---|
| `Text.HasHttpScheme` | akapi-fetch.js:53 | true exactly when `http:` or `https:` occurs at some position of the path, not only at its start |
| `Text.IdRun` | akapi-fetch.js:41 | the longest prefix of `[a-zA-Z0-9_-]` characters: all of it is in the class, and the next character is not |
| `Text.NatToDecimal` | akapi-fetch.js:120 | a status renders as a non-empty string of decimal digits with no leading zero |
| `Text.DecimalRoundTrip` | akapi-fetch.js:120 | the rendered status reads back as the same number |
| `Text.IntToDecimalInjective` | akapi-fetch.js:120 | distinct statuses, negative ones included, render as distinct texts |
| `AKAPI.Message` | akapi-fetch.js:157-165 | errors rethrown from the `catch` start with `AK API Error: `; the data-type, content-type and write-guard errors thrown before the `try` start with `API ` instead |
| `AKAPI.StatusMessageDeterminesStatus` | akapi-fetch.js:118-121 | two "Response status" messages are equal only for the same status and the same body text |
| `AKAPI.StripBase` | akapi-fetch.js:50-52 | a leading `/rest/v1/` is removed exactly once, and any other path is unchanged |
| `AKAPI.RequestPathFor` | akapi-fetch.js:53 | the request path is always absolute or a URL; it is the stripped path itself exactly when that is absolute or mentions `http(s):`, else `/rest/v1/` + path |
| `AKAPI.ContentTypeFor` | akapi-fetch.js:55 | form encoding exactly for GET, `urlencoded`, or the raw value `application/x-www-form-urlencoded`; JSON exactly for a non-GET whose content option is unset or the raw value `application/json`; any other value passes through raw |
| `AKAPI.CacheKey` | akapi-fetch.js:74 | the key is the method, a space, the stripped path, a space, and `data_string` as string concatenation renders it |
| `AKAPI.CacheKeyLayout` | akapi-fetch.js:74 | a key starts with the method and a space, holds the path at the next positions, then a space, and ends with the rendered payload |
| `AKAPI.Serialize` | akapi-fetch.js:57-72 | gives undefined exactly for falsy data; gives null exactly for an object or array without keys, whatever the content type; passes strings through; a non-string, non-object value fails with "unepected data type" and its `typeof`; a non-empty object with a content type other than form or JSON fails with "unexpected content-type"; otherwise the form or JSON encoder's text, or the form encoder's own failure; no failure here is prefixed |
| `AKAPI.Prepare` | akapi-fetch.js:48-74 | fails exactly when serialisation fails, with serialisation's error; otherwise gives the stripped path, its request path, the negotiated content type, the serialised `data_string` and the key built from the stripped path |
| `AKAPI.IsReadOnly` | akapi-fetch.js:89 | a method is read-only exactly when it is GET, HEAD, OPTIONS or TRACE |
| `AKAPI.GreedyMatchIsPattern` | akapi-fetch.js:41 | the greedy matcher accepts a key exactly when `^POST report/run/[a-zA-Z0-9_-]+/? ` matches it |
| `AKAPI.ReadSafe` | akapi-fetch.js:92 | the `read_safe` test accepts a key exactly when the regular expression matches it |
| `AKAPI.WriteBlocked` | akapi-fetch.js:89-97 | a call is rejected exactly when writes are off, the method is not GET/HEAD/OPTIONS/TRACE, and the key does not match the read-safe pattern |
| `AKAPI.BuildRequest` | akapi-fetch.js:83-114 | no-store is set iff caching is off; the CSRF header iff the method is not read-only; `Accept: text/html` iff receive is `html`; a non-empty data string is added to a GET's URL after `?` or `&`, and is the body with a Content-Type for other methods; an empty or absent one adds neither |
| `AKAPI.IsOkStatus` | akapi-fetch.js:118 | `response.ok`: the status is in the range 200 to 299 |
| `AKAPI.DefaultReceive` | akapi-fetch.js:24-39 | the status table gives `error` exactly for its 4xx/5xx entries; an ok status gives `location` for 201, `status` for 202 and 204, and `json` for every other 2xx (200 included); statuses outside the table give `json` |
| `AKAPI.Interpret` | akapi-fetch.js:126-139 | each of `json`, `html`, `text`, `location` and `status` gives its extraction; any other mode fails with the prefixed "unexpected option receive" error; `json` fails exactly when the body does not parse, with the parser's own rejection message |
| `AKAPI.Store` | akapi-fetch.js:146 | storing puts the result under its key, keeps every other entry and adds no other key; storing nothing leaves the cache as it was |
| `AKAPI.Exchange` | akapi-fetch.js:116-139 | a network rejection or non-ok status fails with the prefix and leaves receive as the caller set it; for an ok response the mode is the caller's, or the status table's when unset, it is written back, and the outcome is that mode's extraction; the store is planned exactly for a cacheable success, under the call's key |
| `AKAPI.Run` | akapi-fetch.js:44-166 | the whole call: payload errors come first, unchanged; a cache hit returns the stored value with no network call, no guard check and no store; the guard rejects exactly the blocked writes that were not cache hits; every other prepared call sends `BuildRequest`'s request; a network rejection fails with the prefixed message; a non-ok status always fails before any mode is chosen; an ok status extracts with the caller's or the table's mode and writes it back; the store happens exactly for cacheable successes sent to the network, under the call's key |
| `AKAPI.UncachedSuccessWasSent` | akapi-fetch.js:75-117 | without the cache option every successful call went over the network |
| `AKAPI.ErrorPrefixes` | akapi-fetch.js:62-165 | failures before the request carry no prefix; failures after it carry `AK API Error: `, except a JSON parse rejection |
| `AKAPI.ReceiveDefaulting` | akapi-fetch.js:122-125 | `options.receive` changes only when it was unset and an ok response arrived, and a mode taken from the status table never fails as the unknown `error` |
| `AKAPI.StoreAtKey` | akapi-fetch.js:141-147 | the completion's store adds the result under the call's key for exactly the cacheable successes sent over the network, and otherwise leaves the cache alone |
| `AKAPI.PrefixedPathIsSameCall` | akapi-fetch.js:50-53 | `"/rest/v1/x"` and `"x"` (x not itself prefixed) are the same call: same request, key, outcome and state change |
| `AKAPI.CacheRoundTrip` | akapi-fetch.js:74-77 | once a result is stored, the same call with the cache option returns it without a network call, whatever the network would answer |
| `AKAPI.KeyDeterminesPayloadText` | akapi-fetch.js:74 | for a fixed method and path, equal keys mean equal rendered payloads |
| `AKAPI.KeyCollisions` | akapi-fetch.js:74 | absent data and an empty object get different keys; the string payloads `"undefined"` and `"null"` collide with them |
| `AKAPI.ReadSafeKey` | akapi-fetch.js:41 | the read-safe prefix, an identifier, then ` ` or `/ ` always match the pattern |
| `AKAPI.ReportRunIsReadSafe` | akapi-fetch.js:41 | a POST to `report/run/<name>` or `report/run/<name>/` is never blocked, whatever its payload |
| `AKAPI.PostItemsIsBlocked` | akapi-fetch.js:91-96 | with writes off, a JSON POST to `items` fails with "writes not enabled" and sends nothing |
| `AKAPI.StatusTableAtRun` | akapi-fetch.js:118-136 | with no receive option, 204 gives the status, 201 gives the Location header, and 301 and 404 fail as response statuses |
| `Dispatcher.Snapshot` | akapi-fetch.js:48 | a call without an options object reads no cache flag, no content and no receive mode |
| `Dispatcher.PrepareArguments` | akapi-fetch.js:48-74 | the imperative normalisation, negotiation, serialisation and key building give exactly `Prepare`'s result |
| `Dispatcher.AssembleRequest` | akapi-fetch.js:83-114 | the request assembled field by field is exactly `BuildRequest`'s |
| `Dispatcher.AwaitResponse` | akapi-fetch.js:116-139 | the awaited part of the `try` gives `Exchange`'s outcome and writes its defaulted mode, and only that, into the caller's options |
| `Dispatcher.AKAPIFetch.constructor` | akapi-fetch.js:14-20 | writes start enabled, the cache empty and the counter at zero |
| `Dispatcher.AKAPIFetch.FetchAsWritten` | akapi-fetch.js:44-166 | the call's outcome and request are `Run`'s; the counter goes up by one; `allow_writes` is unchanged; the cache map is unchanged; the caller's options change only in `receive` |
| `Dispatcher.AKAPIFetch.Fetch` | akapi-fetch.js:141-147 | as `FetchAsWritten`, and the cache afterwards holds the stored result of every cacheable success sent to the network |
| `Dispatcher.AKAPIFetch.Get` | akapi-fetch.js:169-171 | `fetch` with method GET |
| `Dispatcher.AKAPIFetch.Post` | akapi-fetch.js:172-174 | `fetch` with method POST |
| `Dispatcher.AKAPIFetch.Put` | akapi-fetch.js:175-177 | `fetch` with method PUT |
| `Dispatcher.AKAPIFetch.Patch` | akapi-fetch.js:178-180 | `fetch` with method PATCH |
| `Dispatcher.AKAPIFetch.Delete` | akapi-fetch.js:181-183 | `fetch` with method DELETE |
| `Dispatcher.AKAPIFetch.GetCached` | akapi-fetch.js:186-188 | GET with a fresh `{ cache: true }` |
| `Dispatcher.AKAPIFetch.GetHtml` | akapi-fetch.js:189-191 | GET with a fresh `{ receive: 'html' }`, cache untouched |
| `Dispatcher.AKAPIFetch.PostHtml` | akapi-fetch.js:192-194 | POST with a fresh `{ receive: 'html' }`, cache untouched |
| `Dispatcher.RepeatedCachedGetAsWritten` | akapi-fetch.js:141-147 | as written, two `get_cached` calls on a fresh dispatcher both send the same request: the cache never answers |
| `Dispatcher.RepeatedCachedGet` | akapi-fetch.js:141-147 | with the store in place, after a `get_cached` answered 201, 202 or 204 for a payload that encodes, a second identical `get_cached` returns the same result and sends nothing |
| `Dispatcher.ReusedOptions` | akapi-fetch.js:123-125 | a reused options object keeps the mode a 201 defaulted it to, so a later 200 returns the Location header instead of parsed JSON |

## Findings

| source | as written | input that shows it | evidently intended | confidence | as-written member | corrected member |
|---|---|---|---|---|---|---|
| akapi-fetch.js:142-147 | the completion callback is a plain `function`, so in this strict-mode class `this` is undefined inside it; `this.cached_requests[cache_key] = result` throws in a detached promise and nothing is stored | `get_cached('x')` twice on a fresh page: both calls go to the network | the successful result is stored under its key, and the next identical cacheable call is answered from `cached_requests` | high; not executed | `Dispatcher.RepeatedCachedGetAsWritten` | `Dispatcher.RepeatedCachedGet` |

`Dispatcher.AKAPIFetch.FetchAsWritten` models the code with the store as the no-op it is. `Dispatcher.AKAPIFetch.Fetch` adds the store. The wrappers and scenarios use `Fetch`, except the as-written scenario. The intended property is proved as `AKAPI.CacheRoundTrip`.

## Left out

- The network call `fetch(request_path, request_params)` (akapi-fetch.js:117) is foreign I/O. Its answer is the `Response` parameter.
- `response.json()` and `response.text()` are foreign I/O. The parser is an uninterpreted function in `Codecs` that may fail.
- `URLSearchParams(...).toString()` and `JSON.stringify` are library encoders. They are uninterpreted functions of the payload's members, so the encoded text is not modelled. Both encoders are told whether the payload is an array, so `['a']` and `{0: 'a'}` may encode differently. The form encoder's failure is modelled as an opaque message, without saying which payloads (arrays of plain values, for one) make it throw. `JSON.stringify` is total on the modelled payloads, which hold no cycles and no BigInt values.
- The `'no-store'` key set at akapi-fetch.js:86 is recorded as `Request.noStore`. `fetch` does not read that key (its option is `cache: 'no-store'`), so what the network does with it is not modelled.
- The CSRF token from `Cookies.get('csrftoken')` (akapi-fetch.js:100) comes from a cookie store that is not part of this model. Only the header's presence is modelled.
- `console_logging`, `alert_on_failure`, the `console.log`/`console.error` calls and `alert` (akapi-fetch.js:79-81, 93-95, 143-152, 158-163) only produce side effects and do not affect results.
- Promise scheduling is left out. Each call is one sequential step, with the completion's store (in `Fetch`) at its end. So the race between concurrent cacheable calls, where each sends its own request and the later store wins, is not modelled.
- Two JavaScript details are left out:
  - A `path` that is not a string, where `startsWith` would throw.
  - The `in` lookup also sees `Object.prototype` names. Keys always contain two spaces, so such names cannot match.
- `options.cache` is a boolean in the model. `content` and `receive` are strings. Other JavaScript values in those slots are not modelled.
- `request_counter` is modelled as a counter that increases by one on every call. The per-call `counter` it yields only labels log lines.
