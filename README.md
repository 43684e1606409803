# TorrentioDebridProxy, modelled in Dafny

TorrentioDebridProxy is a Stremio add-on. It sits between a Stremio client and a
Torrentio instance configured for Real-Debrid. For a title, its stream list handler
asks Torrentio for the streams and rewrites each Real-Debrid link so that it points
at the proxy, with the access key appended when one is configured. When a client
plays such a link, the proxy resolves the Torrentio link to the Real-Debrid URL.
It does this with a `HEAD` request whose `Location` header is the answer. It caches
that URL per remote path, fetches it with the client's `Range` header, and streams
the body back chunk by chunk. A 404 from Real-Debrid means the URL has gone stale:
the proxy evicts the entry, resolves again, and tries exactly once more. An
optional access key, checked by a middleware, guards every route.

The project has one Dafny module per core source file, plus three shared modules:

- `RealDebrid` (`real_debrid.dfy`) models `src/services/realDebrid.ts` as functions
  on a `Session`. A session holds the process-wide cache, the client response, and
  the log of upstream calls made so far. The upstream servers are a parameter
  `Upstream` that says what the n-th upstream call of a request returns. The lemmas
  cover:
  - the 404 retry;
  - the number and order of upstream calls;
  - the cache key a resolve writes;
  - the effect of a request on the cache;
  - the final state of the client response.
- `RealDebridProxy` (`real_debrid_proxy.dfy`) models the same file as the program it
  is:
  - a `RealDebridService` class whose `resolvedUrlCache` field the methods update in
    place;
  - an `UpstreamClient` that logs the calls;
  - a `BodyReader`;
  - the header copy loop and the `pump` loop as methods.

  Each method is proved to leave the cache, the call log and the response exactly as
  the matching `RealDebrid` function says.
- `HeaderForwarding` (`header_forwarding.dfy`) models `forwardStreamHeaders` of
  `src/utils/headers.ts` as a method on a client response. It is proved against a
  header table function and a warnings function. It includes a scanner for the
  `Content-Range` pattern, proved equal to the shape that pattern describes.
- `Config` (`config.dfy`) models `src/utils/config.ts`. A start-up error that makes
  the program exit becomes a `Failure` here.
- `StreamRoute` (`stream_route.dfy`) models `src/routes/stream.ts`.
- `Auth` (`auth.dfy`) models `src/middleware/auth.ts`.
- The shared modules:
  - `Wrappers` holds `Option` and `Result`.
  - `Strings` holds the JavaScript string operations the code uses:
    - `startsWith`;
    - `includes`;
    - `replace` of the first occurrence;
    - `split(...)[1]`;
    - truthiness.
  - `Http` holds fetch headers and the Express response. The response is a class
    whose `status`, `setHeader`, `send`, `write` and `end` change its state.

Some behaviours of the code that are easy to misread, and that the model keeps:

- A 404 from the URL just resolved on a cache miss is retried too, the same as a 404
  from a cached URL. The log line at `src/services/realDebrid.ts:55` speaks of a
  "Cached RD URL", but `isRetry` defaults to `false` for the call at
  `src/services/realDebrid.ts:161`. `RealDebrid.FreshNotFoundIsRetried` states this.
- The proxy copies the upstream headers verbatim (`src/services/realDebrid.ts:80`).
  It does not call `forwardStreamHeaders`, which is modelled on its own.
- A `Location` header that is present but empty counts as no redirect.
- A failed read after data has been written leaves the response open.
- A non-ok status is passed on as it is, including a 404 on the retry.
- The resolve caches under the text after `/resolve/realdebrid/` in the Torrentio
  link, while the lookup and the eviction use the remote path. The two agree only
  for remote paths that do not themselves hold `/resolve/realdebrid/`; see
  "## Findings".

## Model

| member | source | states |
|---|---|---|
| Strings.ReplaceFirst | src/routes/stream.ts:23-26 | `String.replace` with a string pattern: the input unchanged when the pattern does not occur, otherwise the replacement put in place of the first occurrence only |
| Strings.SplitSecond | src/services/realDebrid.ts:22 | `split(sep)[1]`: absent exactly when the separator does not occur; otherwise the text after the first separator, up to the next occurrence of the separator or the end, with no occurrence starting inside it |
| HeaderForwarding.CopyForwardable | src/utils/headers.ts:42-53 | copies exactly the non-blocked upstream headers, in upstream order, onto the client response; the forwarded and blocked counts are the sizes of the two parts |
| HeaderForwarding.CheckRangeMetadata | src/utils/headers.ts:65-94 | the range warnings: a missing or malformed `Content-Range` on a 206, then a 200 answer to a range request |
| HeaderForwarding.ForwardStreamHeaders | src/utils/headers.ts:27-114 | the client's headers become the forwardable upstream headers over the old table plus every missing default; `added` is the number of missing defaults; the warnings come in the order recorded |
| HeaderForwarding.MatchesContentRange | src/utils/headers.ts:76-77 | an accepted value starts with `bytes `, has at least 11 characters and ends in a digit or `*`; `ContentRangeRecognized` gives the exact language |
| HeaderForwarding.DigitsEnd | src/utils/headers.ts:76 | the end of the run of digits starting at `i`: everything before it is a digit and the character at it is not |
| HeaderForwarding.ForwardableMembers | src/utils/headers.ts:42-53 | a header is forwarded iff upstream sent it and it is not blocked, and dropped iff upstream sent it and it is blocked |
| HeaderForwarding.ForwardablePartition | src/utils/headers.ts:42-53 | the forwarded and dropped headers together are exactly the upstream headers (as multisets), so `forwarded + blocked` is the number of upstream headers |
| HeaderForwarding.ForwardableOfUnblocked | src/utils/headers.ts:42-53 | with no blocked header upstream, every header is forwarded in order and none is dropped |
| HeaderForwarding.NoBlockedHeaderAdded | src/utils/headers.ts:8-14 | a blocked name is on the client response after the call iff it was before, with its old value: no hop-by-hop header ever comes from upstream |
| HeaderForwarding.ForwardedValue | src/utils/headers.ts:51 | every non-blocked upstream header reaches the client with its upstream value |
| HeaderForwarding.DefaultsPresent | src/utils/headers.ts:56-111 | `Accept-Ranges` and the three CORS headers are always present afterwards, with the upstream value when upstream sent one and the default otherwise |
| HeaderForwarding.MissingCount | src/utils/headers.ts:56-111 | `added` counts one for each of the four defaults upstream lacks |
| HeaderForwarding.DefaultsInOrder | src/utils/headers.ts:97-111 | the four guarded `setHeader` calls, made in order, give the same table as adding all the missing defaults at once |
| HeaderForwarding.AddedBound | src/utils/headers.ts:56-111 | at most four headers are added, and none exactly when upstream sent all four |
| HeaderForwarding.WarningsExplained | src/utils/headers.ts:55-94 | at most two warnings, since the 206 check and the 200 check never both fire; each warning is recorded iff its condition holds: no `accept-ranges`; a 206 without a truthy `content-range`; a 206 whose `content-range` fails the pattern, with that value in the message; a truthy range answered by 200 |
| HeaderForwarding.MatchedHasShape | src/utils/headers.ts:76-77 | every value the scanner accepts is `bytes <digits>-<digits>/<digits or *>` |
| HeaderForwarding.ShapeIsMatched | src/utils/headers.ts:76-77 | the scanner accepts every value of that form |
| HeaderForwarding.ContentRangeRecognized | src/utils/headers.ts:76-77 | the scanner accepts exactly the values the `Content-Range` pattern of line 76 matches: `bytes <digits>-<digits>/<digits or *>` |
| RealDebrid.TorrentioUrl | src/services/realDebrid.ts:40 | the link is the Torrentio origin, then `/resolve/realdebrid/`, then the remote path unchanged |
| RealDebrid.CacheKey | src/services/realDebrid.ts:22 | the key is absent iff the link holds no `/resolve/realdebrid/`, and a key never holds one |
| RealDebrid.ResolveRDUrl | src/services/realDebrid.ts:6-33 | one `HEAD` probe is logged and the response is untouched; the result is the `Location` iff the probe was answered with a truthy one; then, with a truthy cache key, the cache becomes the old one with the key set to that URL; a failed or empty resolve, or a link without a truthy cache key, leaves the cache as it was |
| RealDebrid.Pump | src/services/realDebrid.ts:105-132 | all chunks are written in order and the headers are kept. A body read to the end ends the response. A failed read with nothing sent yet gives 502 "Stream failed". A failed read after the head went out changes neither status, message nor ended |
| RealDebrid.Relay | src/services/realDebrid.ts:79-132 | the headers become the upstream headers set over the old ones; the body's chunks are appended; a missing body gives 502 "No response body"; a body read to the end keeps the upstream status and ends the response |
| RealDebrid.FetchAndProxy | src/services/realDebrid.ts:42-147 | only appends to the call log: the first new call is the fetch of the URL with the truthy `Range`, there are one to three new calls, and exactly one on a retry |
| RealDebrid.ProxyStream | src/services/realDebrid.ts:35-162 | only appends to the call log, one to four calls; the first is the fetch of the cached URL on a hit and the probe of the Torrentio link on a miss |
| RealDebrid.FirstMarkerAfterOrigin | src/services/realDebrid.ts:40 | in the Torrentio link built for a remote path, the first `/resolve/realdebrid/` is the one right after the origin |
| RealDebrid.CacheKeyOfTorrentioUrl | src/services/realDebrid.ts:22 | the cache key of that link is the remote path itself when the path holds no `/resolve/realdebrid/`, and the part before the first one otherwise |
| RealDebrid.ResolveCachesUnderRemotePath | src/services/realDebrid.ts:22-26 | for a remote path without `/resolve/realdebrid/`, a successful resolve caches the URL under that very path, the key later looked up and evicted; an empty path is not cached |
| RealDebrid.WriteAllAppends | src/services/realDebrid.ts:105-119 | writing chunks appends them to the body in the order read, and the head goes out with the first one |
| RealDebrid.RetryFetchesOnce | src/services/realDebrid.ts:68 | a retry makes exactly one upstream call, the fetch of its URL: it never retries again |
| RealDebrid.FirstAttemptCalls | src/services/realDebrid.ts:50-69 | a first attempt fetches its URL with the client's truthy `Range`; it goes on to probe and fetch again iff the fetch answered 404; every fetch carries the same `Range` |
| RealDebrid.MissCalls | src/services/realDebrid.ts:153-161 | a miss probes the Torrentio link first, and makes a first attempt only when that probe yields a URL |
| RealDebrid.ProxyStreamCalls | src/services/realDebrid.ts:149-161 | a hit starts by fetching the cached URL; a miss starts by probing the Torrentio link; what follows is at most one first attempt |
| RealDebrid.AtMostTwoOfEach | src/services/realDebrid.ts:35-162 | a request makes between one and four upstream calls, with at most two fetches and at most two probes |
| RealDebrid.AttemptCounts | src/services/realDebrid.ts:53-68 | a first attempt makes at most two fetches and at most one probe |
| RealDebrid.CountsAppend | src/services/realDebrid.ts:53-68 | fetch and probe counts add up over concatenated call logs |
| RealDebrid.FailedResolveAnswers502 | src/services/realDebrid.ts:153-159 | a miss whose resolve fails answers 502 "Failed to resolve stream URL", fetches nothing and keeps the cache |
| RealDebrid.NotFoundEvictsAndRetries | src/services/realDebrid.ts:53-69 | for a remote path without `/resolve/realdebrid/`: a 404 on a first attempt evicts the entry and probes again; a failed probe answers 502 "Failed to resolve stream URL after retry" with the entry gone; otherwise the fresh URL replaces the entry and is fetched as a retry |
| RealDebrid.NotOkIsForwarded | src/services/realDebrid.ts:71-77 | a non-2xx status that is not retried is sent on with "Failed to fetch stream"; the cache is kept and only the one fetch is made |
| RealDebrid.FetchFailureAnswers502 | src/services/realDebrid.ts:135-146 | a fetch that throws answers 502 "Proxy failed" and keeps the cache |
| RealDebrid.OkIsStreamed | src/services/realDebrid.ts:79-132 | a 2xx is passed on with its status and headers; a missing body gives 502 "No response body"; a body read to the end is written in order and the response ended; a failed read gives 502 "Stream failed" only if nothing was written, otherwise it leaves the written chunks and an open response |
| RealDebrid.AttemptReplyConsistent | src/services/realDebrid.ts:42-147 | every attempt leaves a response whose head has gone out. An error text comes alone, ends the response and is one of the six messages, with status 502 except for a forwarded non-2xx. Without an error text the status is 2xx. The response is left open only after a failed read that followed written data |
| RealDebrid.ProxyReplyConsistent | src/services/realDebrid.ts:35-162 | the same holds for every request |
| RealDebrid.AttemptCacheFrame | src/services/realDebrid.ts:42-147 | for a remote path without `/resolve/realdebrid/`, an attempt changes no cache entry other than the remote path's |
| RealDebrid.ProxyStreamCacheFrame | src/services/realDebrid.ts:149-161 | for a remote path without `/resolve/realdebrid/`, a request changes no cache entry other than the remote path's |
| RealDebrid.TouchedKeys | src/services/realDebrid.ts:22-58 | the keys a request may write: the remote path (evicted at line 58) and the resolve's cache key, nothing else |
| RealDebrid.AttemptCacheFrameAnyPath | src/services/realDebrid.ts:42-147 | for every remote path, an attempt changes no cache entry outside the remote path and the resolve's cache key |
| RealDebrid.ProxyStreamCacheFrameAnyPath | src/services/realDebrid.ts:35-162 | for every remote path, a request changes no cache entry outside the remote path and the resolve's cache key |
| RealDebrid.MarkerPathKey | src/services/realDebrid.ts:22 | the cache key of the Torrentio link of `a/resolve/realdebrid/b` is `a` |
| RealDebrid.MarkerPathCachesUnderPrefix | src/services/realDebrid.ts:22-24 | as written: a miss for `a/resolve/realdebrid/b` with a successful probe and a non-404 fetch sets the entry of `a`, leaves the path's own entry absent, and so breaks the one-entry frame when `a` was not cached |
| RealDebrid.ResolveForPath | src/services/realDebrid.ts:6-33 | the resolve with its result cached under the remote path: same result, same probe, response untouched |
| RealDebrid.ResolveForPathFrame | src/services/realDebrid.ts:58 | keyed by the remote path, a resolve changes no cache entry but the one the lookup reads and a 404 evicts, for every remote path |
| RealDebrid.ResolveForPathAgrees | src/services/realDebrid.ts:22-26 | for every remote path without `/resolve/realdebrid/`, the keyed resolve is exactly the code's resolve |
| RealDebrid.MarkerPathKeyedByPath | src/services/realDebrid.ts:149 | keyed by the remote path, the resolve for `a/resolve/realdebrid/b` writes that path's entry and leaves `a` alone |
| RealDebrid.FreshUrlIsCached | src/services/realDebrid.ts:149-161 | for a non-empty remote path without `/resolve/realdebrid/`: on a miss whose fetch is not a 404, the resolved URL is cached under the remote path and fetched next, so the next request hits |
| RealDebrid.FreshNotFoundIsRetried | src/services/realDebrid.ts:161 | on a miss, a 404 from the freshly resolved URL also triggers a second probe of the Torrentio link |
| RealDebridProxy.UpstreamClient.constructor | src/services/realDebrid.ts:11 | a client for the given upstream with an empty call log |
| RealDebridProxy.UpstreamClient.Head | src/services/realDebrid.ts:11-14 | logs a probe of the URL and returns the upstream's answer for that position |
| RealDebridProxy.UpstreamClient.Get | src/services/realDebrid.ts:50-51 | logs a fetch of the URL with its `Range` and returns the upstream's answer for that position |
| RealDebridProxy.BodyReader.constructor | src/services/realDebrid.ts:103 | a reader at the start of the body |
| RealDebridProxy.BodyReader.Read | src/services/realDebrid.ts:108 | the next chunk, then `done` or a rejection as the body ends |
| RealDebridProxy.SendIfUnsent | src/services/realDebrid.ts:128-130 | the response becomes `GuardedSend` of the old one: the status and text when the head has not gone out, no change otherwise |
| RealDebridProxy.CopyHeaders | src/services/realDebrid.ts:80 | the loop sets every upstream header in order; the table becomes `SetAll` of the old one |
| RealDebridProxy.PumpBody | src/services/realDebrid.ts:105-132 | the read-and-write loop leaves the response exactly as `Pump` says: all chunks written then ended, or a guarded 502 after a failed read |
| RealDebridProxy.RealDebridService.constructor | src/services/realDebrid.ts:4 | the cache starts empty |
| RealDebridProxy.RealDebridService.ResolveRDUrl | src/services/realDebrid.ts:6-33 | result, cache and call log are those of `RealDebrid.ResolveRDUrl`, whatever the client response, which a resolve never touches |
| RealDebridProxy.RealDebridService.Relay | src/services/realDebrid.ts:79-132 | the response becomes `RealDebrid.Relay` of the old one |
| RealDebridProxy.RealDebridService.TryFetchAndProxy | src/services/realDebrid.ts:42-147 | cache, response and call log become `RealDebrid.FetchAndProxy` of the old session |
| RealDebridProxy.RealDebridService.TryProxyStreamWithFallback | src/services/realDebrid.ts:35-162 | cache, response and call log become `RealDebrid.ProxyStream` of the old session |
| Config.StripManifest | src/utils/config.ts:12 | a URL ending in `/manifest.json` loses exactly that one suffix; any other URL is returned unchanged |
| Config.NormalizeAndValidateTorrentioUrl | src/utils/config.ts:5-20 | an accepted URL starts with `https://`, and only an input starting with `https://` or `stremio://` can be accepted (any other scheme, a bare host or a differently cased scheme is refused); an accepted `https://` input becomes that input with one trailing `/manifest.json` removed, an accepted `stremio://` input the same with the scheme replaced; a refused one carries the start-up error text |
| Config.ValidateProxyServerUrl | src/utils/config.ts:22-28 | accepted iff set and non-empty, and then unchanged; otherwise the error text |
| Config.LoadConfig | src/utils/config.ts:30-35 | succeeds iff both URLs are valid; the Torrentio URL is checked first, and a valid one with a missing or empty proxy URL fails with the proxy URL error text; the config holds the key as given, the normalized Torrentio URL and the proxy URL as given |
| Config.StremioSchemeRewritten | src/utils/config.ts:8-10 | `stremio://x` is read exactly as `https://x` |
| Config.ManifestStripped | src/utils/config.ts:12 | one trailing `/manifest.json` is dropped from an `https://` URL, and only one |
| Config.HttpRejected | src/utils/config.ts:14-17 | any `http://` URL is refused |
| Config.MissingTorrentioUrlRejected | src/utils/config.ts:5-17 | an unset or empty `TORRENTIO_URL` is refused |
| StreamRoute.ProxiedUrl | src/routes/stream.ts:23-30 | the result starts with the URL after its Torrentio origin is replaced; without a key nothing follows; with a key one separator and `api_key=<encoded key>` follow |
| StreamRoute.RewriteStream | src/routes/stream.ts:21-32 | fails exactly for a stream without `url`; keeps every other field; a URL without `/realdebrid/` leaves the stream unchanged; a Real-Debrid URL is replaced by `ProxiedUrl` of it, so it starts with the origin-replaced URL and carries the `api_key` when one is set |
| StreamRoute.RewriteAll | src/routes/stream.ts:20-33 | the map gives a result iff every stream has a `url`; the result keeps the length, and each element is the rewrite of the stream at its place |
| StreamRoute.StreamHandler | src/routes/stream.ts:11-41 | requests `<torrentioUrl>/stream/<type>/<id>.json`; a failed request, a missing `streams` field or a stream without `url` gives an empty list; otherwise each stream is rewritten in place |
| StreamRoute.RewriteKeepsStreams | src/routes/stream.ts:20-33 | every field other than `url` is kept, and a stream whose URL lacks `/realdebrid/` comes back unchanged |
| StreamRoute.RealDebridStreamProxied | src/routes/stream.ts:23-30 | a Torrentio-origin link is sent to the same path on the proxy, followed by the key when one is set |
| StreamRoute.ApiKeyAppended | src/routes/stream.ts:27-30 | with a key, the result has a query and the key follows `&` iff the URL already had `?`; without a key nothing is added |
| Auth.DestroySocket | src/middleware/auth.ts:14-16 | a present socket ends up destroyed; an absent one stays absent |
| Auth.Authorize | src/middleware/auth.ts:5-20 | `next()` is called iff no key is configured or the query's `api_key` equals it; a denial destroys a live socket |
| Auth.OpenWithoutKey | src/middleware/auth.ts:10 | with the key unset or empty, every request passes |
| Auth.WrongKeyDropped | src/middleware/auth.ts:10-17 | with a key, a missing or different `api_key` is dropped and the socket, if any, destroyed |
| Auth.DestroyIdempotent | src/middleware/auth.ts:14 | destroying an already destroyed socket changes nothing |

## Left out

- Logging (`console.*` and the `logger` calls) is not modelled; it has no effect on
  the results.
- The idle timer (`setTimeout`/`clearTimeout`), the `AbortController` and the
  response's `close` event are not modelled as such. An abort shows up only as a
  failed `read()` (`ReadEnd.ReadFailed`), which the code handles the same way as any
  other read error.
- Concurrency between requests is not modelled. The model runs one request at a time
  against the shared cache. An interleaving in which one request evicts the entry
  that another request has just written is not covered.
- `res.write` back-pressure and errors, and the exceptions `res.setHeader` throws on
  invalid header values, are not modelled.
- Http.Sent: Express's `res.send(text)` also sets `Content-Type` when it is unset, and
  `Content-Length` and `ETag`. The model leaves the header table as it was, so after
  a "No response body" or "Stream failed" answer it still holds the upstream
  `content-length`, which Express would overwrite.
- Http.Reply: the header table is a map with case-sensitive names, where Node matches
  header names without regard to case. The model writes the names the proxy sets
  itself (`accept-ranges` and the CORS names) in lower case, where
  `src/utils/headers.ts` writes `Accept-Ranges` and so on; names that differ only in
  case are not modelled as one header.
- HeaderForwarding.ForwardStreamHeaders: this method and `CopyForwardable` require that
  the head has not been sent. Once it has, Node's `setHeader` throws, and
  `src/utils/headers.ts` has no guard against that; that exception is not modelled.
- Http.WellFormed: the `set-cookie` field, which fetch's `Headers.forEach` hands out
  once per cookie rather than combined, is outside the header lists modelled. A
  Real-Debrid stream response carrying cookies is not covered.
- Http.Lower: `toLowerCase` is modelled for ASCII letters only. Names from fetch are
  already lower-case, and the model relies on that.
- Strings.ReplaceFirst: `$` patterns in the replacement text of `String.replace` are
  not interpreted.
- StreamRoute.StreamHandler: the following are not modelled:
  - `encodeURIComponent`, which is a parameter `encode`;
  - the HTTP request to Torrentio, which is a parameter `upstream`;
  - the JSON body of the answer, which the model keeps as the `streams` field only;
  - `respond` (`src/utils/response.ts` is not part of this model).
- Auth.Authorize: an `api_key` given several times (an array in `req.query`) is not
  modelled. Such a value never equals the configured key, so the request is denied,
  as it would be for any other wrong value.
- Config.LoadConfig: the port (`PORT`, parsed with `parseInt`) and the reading of
  `process.env` are not modelled. The start-up message about the key is left out too.
- The Express routing in `src/index.ts` and the resolve handler in
  `src/routes/resolve.ts` are not part of this model. These files take the remote
  path and the `Range` header from the request.

## Findings

| source | as written | input that shows it | evidently intended | confidence | as-written member | corrected member |
|---|---|---|---|---|---|---|
| src/services/realDebrid.ts:22-24 | the resolved URL is cached under `torrentioUrl.split("/resolve/realdebrid/")[1]`, while the lookup (line 149) and the eviction (line 58) use `remotePath` | remote path `a/resolve/realdebrid/b` (the route `/resolve/realdebrid/*` passes any rest of the path): a miss with a successful probe and a 200 fetch sets the entry of `a`, which a request for `a` then reads, and never writes the path's own entry | cache the URL under the remote path, so that a request writes only its own entry | medium, not executed | RealDebrid.MarkerPathCachesUnderPrefix | RealDebrid.ResolveForPath |

The request functions `RealDebrid.FetchAndProxy` and `RealDebrid.ProxyStream`, and the
class methods proved equal to them, keep the code's key, so that they describe what the
program does. `RealDebrid.ResolveForPathFrame` proves the intended one-entry frame for
the keyed resolve on every remote path. `RealDebrid.ResolveForPathAgrees` proves that
the keyed resolve is the code's resolve on every remote path without
`/resolve/realdebrid/`.
