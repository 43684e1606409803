/**
 * The Real-Debrid stream proxy of `src/services/realDebrid.ts`, as functions on
 * the state a request sees: the process-wide cache of resolved URLs, the client
 * response and the log of upstream calls made so far. A request for a remote path
 * reuses the cached Real-Debrid URL when there is one and otherwise resolves the
 * Torrentio link by a `HEAD` request whose `Location` is the Real-Debrid URL; a 404
 * from Real-Debrid evicts the entry, resolves again and retries once; a 2xx response
 * is streamed to the client chunk by chunk.
 *
 * The upstream servers are a parameter `Upstream`: what the n-th upstream call of the
 * request gives back. The class in `real_debrid_proxy.dfy` makes the same calls step by
 * step; its methods are proved to produce exactly the sessions defined here.
 */
module RealDebrid {
  import opened Wrappers
  import opened Strings
  import opened Http

  const TORRENTIO_ORIGIN := "https://torrentio.strem.fun"
  const RESOLVE_MARKER := "/resolve/realdebrid/"

  const FAILED_TO_RESOLVE := "Failed to resolve stream URL"
  const FAILED_AFTER_RETRY := "Failed to resolve stream URL after retry"
  const FAILED_TO_FETCH := "Failed to fetch stream"
  const NO_BODY := "No response body"
  const STREAM_FAILED := "Stream failed"
  const PROXY_FAILED := "Proxy failed"

  /** The Torrentio link that redirects to the Real-Debrid URL of `remotePath`. */
  function TorrentioUrl(remotePath: string): (r: string)
    ensures StartsWith(r, TORRENTIO_ORIGIN + RESOLVE_MARKER)
    ensures r[|TORRENTIO_ORIGIN| + |RESOLVE_MARKER|..] == remotePath
  {
    TORRENTIO_ORIGIN + RESOLVE_MARKER + remotePath
  }

  /** `torrentioUrl.split("/resolve/realdebrid/")[1]`; `None` is `undefined`. */
  function CacheKey(torrentioUrl: string): (r: Option<string>)
    ensures r.None? <==> !Contains(torrentioUrl, RESOLVE_MARKER)
    ensures r.Some? ==> !Contains(r.value, RESOLVE_MARKER)
  {
    SplitSecond(torrentioUrl, RESOLVE_MARKER)
  }

  /** What the `HEAD` request with `redirect: "manual"` gives: it threw, or it was
      answered, with or without a `Location` header. */
  datatype HeadOutcome = HeadFailed | HeadReplied(location: Option<string>)

  /** How reading a response body ends: `done`, or a rejected `read()` (a network error,
      or the abort fired by the idle timer or by the client closing the connection). */
  datatype ReadEnd = Done | ReadFailed

  /** The chunks `read()` delivers before the body ends as `end` says. */
  datatype Body = Body(chunks: seq<Chunk>, end: ReadEnd)

  /** What `fetch(url, { headers, signal })` gives: it threw, or a response with a
      status, headers and a body (`None` is a `null` body). */
  datatype FetchOutcome =
    | FetchFailed
    | FetchReplied(status: int, headers: FetchHeaders, body: Option<Body>)

  /** An upstream call: a `HEAD` probe of a Torrentio link, or a `GET` of a stream URL
      with the `Range` header it carried. */
  datatype Call = Probe(url: string) | Fetch(url: string, range: Option<string>)

  /** The upstream servers: the outcome of the n-th call of the request, by kind. */
  datatype Upstream = Upstream(probe: nat -> HeadOutcome, fetch: nat -> FetchOutcome)

  /** The resolved-URL cache, the client response, and the upstream calls so far. */
  datatype Session = Session(cache: map<string, string>, reply: Reply, calls: seq<Call>)

  /** The result of `resolveRDUrl` (`None` is `null`) and the session after it. */
  datatype Resolved = Resolved(target: Option<string>, session: Session)

  /** A client response the proxy has not touched yet. */
  predicate Unanswered(r: Reply)
  {
    !r.headersSent && !r.ended && r.written == [] && r.message.None?
  }

  /** `resolveRDUrl(torrentioUrl)` made as the next upstream call: a non-empty `Location`
      is the answer, and it is cached under the link's cache key when that key is
      non-empty; a failure or a missing `Location` gives `null` and changes nothing. */
  function ResolveRDUrl(s: Session, w: Upstream, torrentioUrl: string): (r: Resolved)
    ensures r.session.reply == s.reply
    ensures r.session.calls == s.calls + [Probe(torrentioUrl)]
    ensures r.target.Some? <==> w.probe(|s.calls|).HeadReplied? && Truthy(w.probe(|s.calls|).location)
    ensures r.target.Some? ==> r.target == w.probe(|s.calls|).location && r.target.value != ""
    ensures r.target.None? || !Truthy(CacheKey(torrentioUrl)) ==> r.session.cache == s.cache
    ensures r.target.Some? && Truthy(CacheKey(torrentioUrl)) ==>
      r.session.cache == s.cache[CacheKey(torrentioUrl).value := r.target.value]
  {
    var after := s.(calls := s.calls + [Probe(torrentioUrl)]);
    match w.probe(|s.calls|)
    case HeadFailed => Resolved(None, after)
    case HeadReplied(location) =>
      if !Truthy(location) then Resolved(None, after)
      else
        var key := CacheKey(torrentioUrl);
        var cache := if Truthy(key) then s.cache[key.value := location.value] else s.cache;
        Resolved(location, after.(cache := cache))
  }

  /** `if (!res.headersSent) res.status(code).send(text)`. */
  function GuardedSend(r: Reply, code: int, text: string): Reply
  {
    if r.headersSent then r else Sent(r.(status := code), text)
  }

  /** `response.ok`. */
  predicate IsOk(status: int)
  {
    200 <= status <= 299
  }

  /** The `Range` header the proxy sends upstream: the client's, when it is truthy. */
  function RangeSent(rangeHeader: Option<string>): Option<string>
  {
    if Truthy(rangeHeader) then rangeHeader else None
  }

  /** `res.write` of each chunk in turn. */
  function WriteAll(r: Reply, chunks: seq<Chunk>): Reply
    decreases |chunks|
  {
    if chunks == [] then r
    else Written(WriteAll(r, chunks[..|chunks| - 1]), chunks[|chunks| - 1])
  }

  /** `pump()`: writes every chunk read, then ends the response; when a read fails it
      answers 502 if nothing has gone out yet and otherwise leaves the response as it is. */
  function Pump(r: Reply, body: Body): (out: Reply)
    ensures out.written == r.written + body.chunks && out.headers == r.headers
    ensures var failedEarly := body.end == ReadFailed && !r.headersSent && body.chunks == [];
      && out.status == (if failedEarly then 502 else r.status)
      && out.message == (if failedEarly then Some(STREAM_FAILED) else r.message)
      && (body.end == Done || failedEarly ==> out.ended)
      && (!failedEarly && body.end == ReadFailed ==> out.ended == r.ended)
  {
    WriteAllAppends(r, body.chunks);
    var streamed := WriteAll(r, body.chunks);
    match body.end
    case Done => Ended(streamed)
    case ReadFailed => GuardedSend(streamed, 502, STREAM_FAILED)
  }

  /** What an ok upstream response does to the client response: its status and its
      headers, copied verbatim, then its body pumped through (502 when it has none). */
  function Relay(r: Reply, status: int, headers: FetchHeaders, body: Option<Body>): (out: Reply)
    ensures out.headers == SetAll(r.headers, headers)
    ensures out.written == r.written + (if body.Some? then body.value.chunks else [])
    ensures !r.headersSent && body.None? ==> out.status == 502 && out.message == Some(NO_BODY) && out.ended
    ensures body.Some? && body.value.end == Done ==> out.status == status && out.message == r.message && out.ended
  {
    var head := r.(status := status, headers := SetAll(r.headers, headers));
    match body
    case None => GuardedSend(head, 502, NO_BODY)
    case Some(b) => Pump(head, b)
  }

  /** `tryFetchAndProxy(url, isRetry)` for the request for `remotePath`. */
  function FetchAndProxy(
    s: Session, w: Upstream, remotePath: string, rangeHeader: Option<string>, url: string, isRetry: bool): (t: Session)
    ensures s.calls <= t.calls && |s.calls| < |t.calls| <= |s.calls| + 3
    ensures t.calls[|s.calls|] == Fetch(url, RangeSent(rangeHeader))
    ensures isRetry ==> |t.calls| == |s.calls| + 1
    decreases if isRetry then 0 else 1
  {
    var after := s.(calls := s.calls + [Fetch(url, RangeSent(rangeHeader))]);
    match w.fetch(|s.calls|)
    case FetchFailed => after.(reply := GuardedSend(after.reply, 502, PROXY_FAILED))
    case FetchReplied(status, headers, body) =>
      if status == 404 && !isRetry then
        var evicted := after.(cache := after.cache - {remotePath});
        var retry := ResolveRDUrl(evicted, w, TorrentioUrl(remotePath));
        if retry.target.None? then
          retry.session.(reply := GuardedSend(retry.session.reply, 502, FAILED_AFTER_RETRY))
        else
          FetchAndProxy(retry.session, w, remotePath, rangeHeader, retry.target.value, true)
      else if !IsOk(status) then
        after.(reply := GuardedSend(after.reply, status, FAILED_TO_FETCH))
      else
        after.(reply := Relay(after.reply, status, headers, body))
  }

  /** `tryProxyStreamWithFallback(remotePath, rangeHeader, res)`. */
  function ProxyStream(s: Session, w: Upstream, remotePath: string, rangeHeader: Option<string>): (t: Session)
    ensures s.calls <= t.calls && |s.calls| < |t.calls| <= |s.calls| + 4
    ensures t.calls[|s.calls|] ==
      if remotePath in s.cache then Fetch(s.cache[remotePath], RangeSent(rangeHeader)) else Probe(TorrentioUrl(remotePath))
  {
    if remotePath in s.cache then
      FetchAndProxy(s, w, remotePath, rangeHeader, s.cache[remotePath], false)
    else
      var resolved := ResolveRDUrl(s, w, TorrentioUrl(remotePath));
      if resolved.target.None? then
        resolved.session.(reply := GuardedSend(resolved.session.reply, 502, FAILED_TO_RESOLVE))
      else
        FetchAndProxy(resolved.session, w, remotePath, rangeHeader, resolved.target.value, false)
  }

  /** The only slashes of the Torrentio origin are the two of `https://`. */
  lemma OriginSlashes()
    ensures forall j :: 0 <= j < |TORRENTIO_ORIGIN| && TORRENTIO_ORIGIN[j] == '/' ==> j == 6 || j == 7
    ensures TORRENTIO_ORIGIN[7] == '/' && TORRENTIO_ORIGIN[8] == 't'
  {
  }

  /** `/resolve/realdebrid/` does not start inside the origin of a Torrentio link. */
  lemma MarkerNotInOrigin(remotePath: string, i: nat)
    requires i < |TORRENTIO_ORIGIN|
    ensures !OccursAt(TorrentioUrl(remotePath), RESOLVE_MARKER, i)
  {
    var s := TorrentioUrl(remotePath);
    if OccursAt(s, RESOLVE_MARKER, i) {
      var m := s[i..i + |RESOLVE_MARKER|];
      assert m[0] == '/' && m[1] == 'r';
      assert s[i] == TORRENTIO_ORIGIN[i];
      OriginSlashes();
    }
  }

  /** In the Torrentio link of `remotePath` the first `/resolve/realdebrid/` is the one
      right after the origin. */
  lemma FirstMarkerAfterOrigin(remotePath: string)
    ensures IndexOf(TorrentioUrl(remotePath), RESOLVE_MARKER, 0) == Some(|TORRENTIO_ORIGIN|)
  {
    var s := TorrentioUrl(remotePath);
    forall i | 0 <= i < |TORRENTIO_ORIGIN|
      ensures !OccursAt(s, RESOLVE_MARKER, i)
    {
      MarkerNotInOrigin(remotePath, i);
    }
    IndexOfAfterPrefix(TORRENTIO_ORIGIN, RESOLVE_MARKER, remotePath);
  }

  /** The cache key of the Torrentio link of `remotePath` is `remotePath` itself when it
      holds no `/resolve/realdebrid/`, and the text before the first one otherwise. */
  lemma CacheKeyOfTorrentioUrl(remotePath: string)
    ensures !Contains(remotePath, RESOLVE_MARKER) ==> CacheKey(TorrentioUrl(remotePath)) == Some(remotePath)
    ensures Contains(remotePath, RESOLVE_MARKER) ==>
      CacheKey(TorrentioUrl(remotePath)) == Some(remotePath[..IndexOf(remotePath, RESOLVE_MARKER, 0).value])
  {
    FirstMarkerAfterOrigin(remotePath);
    SplitSecondAfterPrefix(TORRENTIO_ORIGIN, RESOLVE_MARKER, remotePath);
  }

  /** Resolving the Torrentio link of a remote path free of `/resolve/realdebrid/` caches
      the answer under that very path, so the entry read by the lookup and deleted on a
      404 is the one written here; an empty path is not cached, and a failed resolve
      changes nothing. */
  lemma ResolveCachesUnderRemotePath(s: Session, w: Upstream, remotePath: string)
    requires !Contains(remotePath, RESOLVE_MARKER)
    ensures var r := ResolveRDUrl(s, w, TorrentioUrl(remotePath));
      r.session.cache == if r.target.Some? && remotePath != "" then s.cache[remotePath := r.target.value] else s.cache
  {
    CacheKeyOfTorrentioUrl(remotePath);
  }

  /** Writing the chunks one by one appends them to the body in the order given, and
      flushes the head as soon as there is one. */
  lemma {:induction false} WriteAllAppends(r: Reply, chunks: seq<Chunk>)
    ensures WriteAll(r, chunks) == r.(written := r.written + chunks, headersSent := r.headersSent || chunks != [])
    decreases |chunks|
  {
    if chunks != [] {
      var init := chunks[..|chunks| - 1];
      WriteAllAppends(r, init);
      assert r.written + init + [chunks[|chunks| - 1]] == r.written + chunks;
    }
  }

  /** The number of fetches in a call log. */
  function Fetches(calls: seq<Call>): nat
    decreases |calls|
  {
    if calls == [] then 0
    else Fetches(calls[..|calls| - 1]) + (if calls[|calls| - 1].Fetch? then 1 else 0)
  }

  /** The number of probes (`resolveRDUrl` calls) in a call log. */
  function Probes(calls: seq<Call>): nat
    decreases |calls|
  {
    if calls == [] then 0
    else Probes(calls[..|calls| - 1]) + (if calls[|calls| - 1].Probe? then 1 else 0)
  }

  /** A retry makes exactly one call, the fetch of the URL it was given. */
  lemma RetryFetchesOnce(s: Session, w: Upstream, remotePath: string, rangeHeader: Option<string>, url: string)
    ensures FetchAndProxy(s, w, remotePath, rangeHeader, url, true).calls == s.calls + [Fetch(url, RangeSent(rangeHeader))]
  {
  }

  /** The calls of a first attempt: a fetch; then, after a 404, a probe of the Torrentio
      link of `remotePath`; then, when that yields a URL, a second fetch. Both fetches carry
      the same `Range`. */
  predicate AttemptShape(extra: seq<Call>, remotePath: string, rangeHeader: Option<string>)
  {
    && 1 <= |extra| <= 3
    && extra[0].Fetch? && extra[0].range == RangeSent(rangeHeader)
    && (|extra| >= 2 ==> extra[1] == Probe(TorrentioUrl(remotePath)))
    && (|extra| == 3 ==> extra[2].Fetch? && extra[2].range == RangeSent(rangeHeader))
  }

  /** The calls a session has made since `s`. */
  function NewCalls(s: Session, t: Session): seq<Call>
  {
    if |s.calls| <= |t.calls| then t.calls[|s.calls|..] else []
  }

  /** A first attempt fetches `url`; only on a 404 does it probe the Torrentio link again
      and, when that yields a URL, fetch once more with the same `Range`. */
  lemma FirstAttemptCalls(s: Session, w: Upstream, remotePath: string, rangeHeader: Option<string>, url: string)
    ensures var t := FetchAndProxy(s, w, remotePath, rangeHeader, url, false);
      var extra := NewCalls(s, t);
      && t.calls == s.calls + extra
      && AttemptShape(extra, remotePath, rangeHeader)
      && extra[0].url == url
      && (|extra| >= 2 <==> w.fetch(|s.calls|).FetchReplied? && w.fetch(|s.calls|).status == 404)
  {
    var t := FetchAndProxy(s, w, remotePath, rangeHeader, url, false);
    var after := s.calls + [Fetch(url, RangeSent(rangeHeader))];
    match w.fetch(|s.calls|)
    case FetchFailed =>
      assert t.calls == after;
    case FetchReplied(status, headers, body) =>
      if status == 404 {
        var probed := after + [Probe(TorrentioUrl(remotePath))];
        var retry := ResolveRDUrl(s.(calls := after, cache := s.cache - {remotePath}), w, TorrentioUrl(remotePath));
        if retry.target.None? {
          assert t.calls == probed;
        } else {
          RetryFetchesOnce(retry.session, w, remotePath, rangeHeader, retry.target.value);
          assert t.calls == probed + [Fetch(retry.target.value, RangeSent(rangeHeader))];
        }
      } else {
        assert t.calls == after;
      }
  }

  /** The calls of a miss: a probe of the Torrentio link, then a first attempt when the
      probe yields a URL. */
  lemma MissCalls(s: Session, w: Upstream, remotePath: string, rangeHeader: Option<string>)
    requires remotePath !in s.cache
    ensures var t := ProxyStream(s, w, remotePath, rangeHeader);
      var extra := NewCalls(s, t);
      && t.calls == s.calls + extra
      && |extra| >= 1 && extra[0] == Probe(TorrentioUrl(remotePath))
      && (|extra| == 1 || AttemptShape(extra[1..], remotePath, rangeHeader))
  {
    var t := ProxyStream(s, w, remotePath, rangeHeader);
    var resolved := ResolveRDUrl(s, w, TorrentioUrl(remotePath));
    var probe := [Probe(TorrentioUrl(remotePath))];
    if resolved.target.None? {
      assert t.calls == s.calls + probe;
    } else {
      var u := FetchAndProxy(resolved.session, w, remotePath, rangeHeader, resolved.target.value, false);
      assert t == u;
      FirstAttemptCalls(resolved.session, w, remotePath, rangeHeader, resolved.target.value);
      var rest := NewCalls(resolved.session, u);
      assert t.calls == s.calls + (probe + rest);
      assert NewCalls(s, t) == probe + rest;
      assert (probe + rest)[1..] == rest;
    }
  }

  /** Every request begins with a fetch of the cached URL on a hit and with a probe of the
      Torrentio link on a miss; what follows is at most one first attempt. */
  lemma ProxyStreamCalls(s: Session, w: Upstream, remotePath: string, rangeHeader: Option<string>)
    ensures var t := ProxyStream(s, w, remotePath, rangeHeader);
      var extra := NewCalls(s, t);
      && t.calls == s.calls + extra
      && (remotePath in s.cache ==>
            AttemptShape(extra, remotePath, rangeHeader) && extra[0].url == s.cache[remotePath])
      && (remotePath !in s.cache ==>
            |extra| >= 1 && extra[0] == Probe(TorrentioUrl(remotePath))
            && (|extra| == 1 || AttemptShape(extra[1..], remotePath, rangeHeader)))
  {
    if remotePath in s.cache {
      FirstAttemptCalls(s, w, remotePath, rangeHeader, s.cache[remotePath]);
    } else {
      MissCalls(s, w, remotePath, rangeHeader);
    }
  }

  /** A request makes at most two fetches and at most two probes: the 404 retry happens
      once at most. */
  lemma AtMostTwoOfEach(s: Session, w: Upstream, remotePath: string, rangeHeader: Option<string>)
    ensures var extra := NewCalls(s, ProxyStream(s, w, remotePath, rangeHeader));
      1 <= |extra| <= 4 && Fetches(extra) <= 2 && Probes(extra) <= 2
  {
    var extra := NewCalls(s, ProxyStream(s, w, remotePath, rangeHeader));
    ProxyStreamCalls(s, w, remotePath, rangeHeader);
    if remotePath in s.cache {
      AttemptCounts(extra, remotePath, rangeHeader);
    } else if |extra| > 1 {
      AttemptCounts(extra[1..], remotePath, rangeHeader);
      assert extra == extra[..1] + extra[1..];
      CountsAppend(extra[..1], extra[1..]);
    }
  }

  /** The counts of a first attempt's calls. */
  lemma AttemptCounts(extra: seq<Call>, remotePath: string, rangeHeader: Option<string>)
    requires AttemptShape(extra, remotePath, rangeHeader)
    ensures Fetches(extra) <= 2 && Probes(extra) <= 1
  {
    var one := extra[..1];
    assert one[..0] == [];
    assert Fetches(one) == 1 && Probes(one) == 0;
    if |extra| >= 2 {
      var two := extra[..2];
      assert two[..1] == one;
      assert Fetches(two) == 1 && Probes(two) == 1;
      if |extra| == 3 {
        assert extra[..2] == two;
      } else {
        assert extra == two;
      }
    } else {
      assert extra == one;
    }
  }

  /** Counting calls distributes over concatenation. */
  lemma {:induction false} CountsAppend(a: seq<Call>, b: seq<Call>)
    ensures Fetches(a + b) == Fetches(a) + Fetches(b)
    ensures Probes(a + b) == Probes(a) + Probes(b)
    decreases |b|
  {
    if b != [] {
      var init := b[..|b| - 1];
      assert (a + b)[..|a + b| - 1] == a + init;
      CountsAppend(a, init);
    } else {
      assert a + b == a;
    }
  }

  /** On a miss whose resolve fails the client gets 502 "Failed to resolve stream URL",
      nothing is fetched and the cache is left as it was. */
  lemma FailedResolveAnswers502(s: Session, w: Upstream, remotePath: string, rangeHeader: Option<string>)
    requires remotePath !in s.cache && Unanswered(s.reply)
    requires !(w.probe(|s.calls|).HeadReplied? && Truthy(w.probe(|s.calls|).location))
    ensures var t := ProxyStream(s, w, remotePath, rangeHeader);
      && t.calls == s.calls + [Probe(TorrentioUrl(remotePath))]
      && t.cache == s.cache
      && t.reply == Sent(s.reply.(status := 502), FAILED_TO_RESOLVE)
  {
  }

  /** The entries of `a` and `b` agree on every key but `key`. */
  ghost predicate AgreeExcept(a: map<string, string>, b: map<string, string>, key: string)
  {
    forall k :: k != key ==> (k in a <==> k in b) && (k in a ==> a[k] == b[k])
  }

  /** A 404 on a first attempt evicts the entry of the remote path and resolves again.
      When that resolve fails the client gets 502 "Failed to resolve stream URL after
      retry" and the stale entry stays gone; otherwise the fresh URL replaces it in the
      cache and is fetched once more as a retry. */
  lemma NotFoundEvictsAndRetries(
    s: Session, w: Upstream, remotePath: string, rangeHeader: Option<string>, url: string)
    requires !Contains(remotePath, RESOLVE_MARKER)
    requires w.fetch(|s.calls|).FetchReplied? && w.fetch(|s.calls|).status == 404
    ensures var t := FetchAndProxy(s, w, remotePath, rangeHeader, url, false);
      var calls := s.calls + [Fetch(url, RangeSent(rangeHeader)), Probe(TorrentioUrl(remotePath))];
      var probe := w.probe(|s.calls| + 1);
      if probe.HeadReplied? && Truthy(probe.location) then
        var location := probe.location.value;
        var cache := if remotePath != "" then s.cache[remotePath := location] else s.cache - {remotePath};
        t == FetchAndProxy(Session(cache, s.reply, calls), w, remotePath, rangeHeader, location, true)
      else
        t == Session(s.cache - {remotePath}, GuardedSend(s.reply, 502, FAILED_AFTER_RETRY), calls)
  {
    var torrentioUrl := TorrentioUrl(remotePath);
    var evicted := Session(s.cache - {remotePath}, s.reply, s.calls + [Fetch(url, RangeSent(rangeHeader))]);
    var retry := ResolveRDUrl(evicted, w, torrentioUrl);
    assert FetchAndProxy(s, w, remotePath, rangeHeader, url, false) ==
      if retry.target.None? then retry.session.(reply := GuardedSend(retry.session.reply, 502, FAILED_AFTER_RETRY))
      else FetchAndProxy(retry.session, w, remotePath, rangeHeader, retry.target.value, true);
    ResolveCachesUnderRemotePath(evicted, w, remotePath);
    var calls := s.calls + [Fetch(url, RangeSent(rangeHeader)), Probe(torrentioUrl)];
    assert retry.session.calls == calls;
    var probe := w.probe(|s.calls| + 1);
    if probe.HeadReplied? && Truthy(probe.location) {
      var location := probe.location.value;
      var cache := if remotePath != "" then s.cache[remotePath := location] else s.cache - {remotePath};
      assert retry.session.cache == cache by {
        if remotePath != "" {
          assert (s.cache - {remotePath})[remotePath := location] == s.cache[remotePath := location];
        }
      }
      assert retry.session == Session(cache, s.reply, calls);
    } else {
      assert retry.session == Session(s.cache - {remotePath}, s.reply, calls);
    }
  }

  /** A non-ok status that is not retried (any status but 404, or a 404 on the retry) is
      passed on to the client with "Failed to fetch stream"; nothing is streamed and the
      cache is untouched. */
  lemma NotOkIsForwarded(
    s: Session, w: Upstream, remotePath: string, rangeHeader: Option<string>, url: string, isRetry: bool)
    requires Unanswered(s.reply)
    requires w.fetch(|s.calls|).FetchReplied? && !IsOk(w.fetch(|s.calls|).status)
    requires w.fetch(|s.calls|).status != 404 || isRetry
    ensures var t := FetchAndProxy(s, w, remotePath, rangeHeader, url, isRetry);
      && t.reply == Sent(s.reply.(status := w.fetch(|s.calls|).status), FAILED_TO_FETCH)
      && t.cache == s.cache
      && t.calls == s.calls + [Fetch(url, RangeSent(rangeHeader))]
  {
  }

  /** A fetch that throws gives 502 "Proxy failed". */
  lemma FetchFailureAnswers502(
    s: Session, w: Upstream, remotePath: string, rangeHeader: Option<string>, url: string, isRetry: bool)
    requires Unanswered(s.reply) && w.fetch(|s.calls|).FetchFailed?
    ensures var t := FetchAndProxy(s, w, remotePath, rangeHeader, url, isRetry);
      t.reply == Sent(s.reply.(status := 502), PROXY_FAILED) && t.cache == s.cache
  {
  }

  /** A 2xx response is passed on with its status and headers, then its body: without a
      body the client gets 502 "No response body"; a body read to the end is written chunk
      by chunk in the order read and the response is ended once; a body whose read fails
      gives 502 "Stream failed" when nothing was written yet, and otherwise leaves the
      response with the chunks written so far and not ended. */
  lemma OkIsStreamed(
    s: Session, w: Upstream, remotePath: string, rangeHeader: Option<string>, url: string, isRetry: bool)
    requires Unanswered(s.reply)
    requires w.fetch(|s.calls|).FetchReplied? && IsOk(w.fetch(|s.calls|).status)
    ensures var t := FetchAndProxy(s, w, remotePath, rangeHeader, url, isRetry);
      var upstream := w.fetch(|s.calls|);
      var head := s.reply.(status := upstream.status, headers := SetAll(s.reply.headers, upstream.headers));
      && t.cache == s.cache
      && t.calls == s.calls + [Fetch(url, RangeSent(rangeHeader))]
      && t.reply == match upstream.body
        case None => Sent(head.(status := 502), NO_BODY)
        case Some(Body(chunks, Done)) => head.(written := chunks, ended := true, headersSent := true)
        case Some(Body(chunks, ReadFailed)) =>
          if chunks == [] then Sent(head.(status := 502), STREAM_FAILED)
          else head.(written := chunks, headersSent := true)
  {
    var upstream := w.fetch(|s.calls|);
    var head := s.reply.(status := upstream.status, headers := SetAll(s.reply.headers, upstream.headers));
    if upstream.body.Some? {
      WriteAllAppends(head, upstream.body.value.chunks);
    }
  }

  /** What the client can end up with: the head has gone out; an error text comes alone,
      ends the response and is one of the proxy's six messages, with status 502 except for
      a forwarded non-ok status; without an error text the status is the upstream 2xx
      status; and the response is left open only after a read failed once data had been
      written. */
  predicate ConsistentReply(r: Reply)
  {
    && r.headersSent
    && (r.message.Some? ==>
          && r.written == [] && r.ended
          && (if r.message.value == FAILED_TO_FETCH then !IsOk(r.status) else r.status == 502)
          && r.message.value in {FAILED_TO_RESOLVE, FAILED_AFTER_RETRY, FAILED_TO_FETCH, NO_BODY, STREAM_FAILED, PROXY_FAILED})
    && (r.message.None? ==> IsOk(r.status))
    && (!r.ended ==> r.written != [] && r.message.None?)
  }

  /** Every attempt leaves the client a consistent reply. */
  lemma {:induction false} AttemptReplyConsistent(
    s: Session, w: Upstream, remotePath: string, rangeHeader: Option<string>, url: string, isRetry: bool)
    requires Unanswered(s.reply)
    ensures ConsistentReply(FetchAndProxy(s, w, remotePath, rangeHeader, url, isRetry).reply)
    decreases if isRetry then 0 else 1
  {
    match w.fetch(|s.calls|)
    case FetchFailed =>
    case FetchReplied(status, headers, body) =>
      if status == 404 && !isRetry {
        var evicted := Session(s.cache - {remotePath}, s.reply, s.calls + [Fetch(url, RangeSent(rangeHeader))]);
        var retry := ResolveRDUrl(evicted, w, TorrentioUrl(remotePath));
        if retry.target.Some? {
          AttemptReplyConsistent(retry.session, w, remotePath, rangeHeader, retry.target.value, true);
        }
      } else if IsOk(status) {
        OkIsStreamed(s, w, remotePath, rangeHeader, url, isRetry);
      }
  }

  /** Every request leaves the client a consistent reply. */
  lemma ProxyReplyConsistent(s: Session, w: Upstream, remotePath: string, rangeHeader: Option<string>)
    requires Unanswered(s.reply)
    ensures ConsistentReply(ProxyStream(s, w, remotePath, rangeHeader).reply)
  {
    if remotePath in s.cache {
      AttemptReplyConsistent(s, w, remotePath, rangeHeader, s.cache[remotePath], false);
    } else {
      var resolved := ResolveRDUrl(s, w, TorrentioUrl(remotePath));
      if resolved.target.Some? {
        AttemptReplyConsistent(resolved.session, w, remotePath, rangeHeader, resolved.target.value, false);
      }
    }
  }

  /** An attempt changes the cache at most at the remote path's entry. */
  lemma {:induction false} AttemptCacheFrame(
    s: Session, w: Upstream, remotePath: string, rangeHeader: Option<string>, url: string, isRetry: bool)
    requires !Contains(remotePath, RESOLVE_MARKER)
    ensures AgreeExcept(FetchAndProxy(s, w, remotePath, rangeHeader, url, isRetry).cache, s.cache, remotePath)
    decreases if isRetry then 0 else 1
  {
    match w.fetch(|s.calls|)
    case FetchFailed =>
    case FetchReplied(status, headers, body) =>
      if status == 404 && !isRetry {
        var evicted := Session(s.cache - {remotePath}, s.reply, s.calls + [Fetch(url, RangeSent(rangeHeader))]);
        var retry := ResolveRDUrl(evicted, w, TorrentioUrl(remotePath));
        ResolveCachesUnderRemotePath(evicted, w, remotePath);
        if retry.target.Some? {
          AttemptCacheFrame(retry.session, w, remotePath, rangeHeader, retry.target.value, true);
        }
      }
  }

  /** A request changes the cache at most at the remote path's entry. */
  lemma ProxyStreamCacheFrame(s: Session, w: Upstream, remotePath: string, rangeHeader: Option<string>)
    requires !Contains(remotePath, RESOLVE_MARKER)
    ensures AgreeExcept(ProxyStream(s, w, remotePath, rangeHeader).cache, s.cache, remotePath)
  {
    if remotePath in s.cache {
      AttemptCacheFrame(s, w, remotePath, rangeHeader, s.cache[remotePath], false);
    } else {
      var resolved := ResolveRDUrl(s, w, TorrentioUrl(remotePath));
      ResolveCachesUnderRemotePath(s, w, remotePath);
      if resolved.target.Some? {
        AttemptCacheFrame(resolved.session, w, remotePath, rangeHeader, resolved.target.value, false);
      }
    }
  }

  /** The cache keys a request for `remotePath` may write: the path itself, which it
      evicts on a 404, and the key its resolve caches under. */
  function TouchedKeys(remotePath: string): (keys: set<string>)
    ensures remotePath in keys
    ensures forall k :: k in keys ==> k == remotePath || CacheKey(TorrentioUrl(remotePath)) == Some(k)
  {
    var key := CacheKey(TorrentioUrl(remotePath));
    {remotePath} + if Truthy(key) then {key.value} else {}
  }

  /** The entries of `a` and `b` agree on every key outside `keys`. */
  ghost predicate AgreeOutside(a: map<string, string>, b: map<string, string>, keys: set<string>)
  {
    forall k :: k !in keys ==> (k in a <==> k in b) && (k in a ==> a[k] == b[k])
  }

  /** For any remote path, an attempt changes the cache only at the keys it touches. */
  lemma {:induction false} AttemptCacheFrameAnyPath(
    s: Session, w: Upstream, remotePath: string, rangeHeader: Option<string>, url: string, isRetry: bool)
    ensures AgreeOutside(FetchAndProxy(s, w, remotePath, rangeHeader, url, isRetry).cache, s.cache, TouchedKeys(remotePath))
    decreases if isRetry then 0 else 1
  {
    match w.fetch(|s.calls|)
    case FetchFailed =>
    case FetchReplied(status, headers, body) =>
      if status == 404 && !isRetry {
        var evicted := Session(s.cache - {remotePath}, s.reply, s.calls + [Fetch(url, RangeSent(rangeHeader))]);
        var retry := ResolveRDUrl(evicted, w, TorrentioUrl(remotePath));
        if retry.target.Some? {
          AttemptCacheFrameAnyPath(retry.session, w, remotePath, rangeHeader, retry.target.value, true);
        }
      }
  }

  /** For any remote path, a request changes the cache only at the keys it touches. */
  lemma ProxyStreamCacheFrameAnyPath(s: Session, w: Upstream, remotePath: string, rangeHeader: Option<string>)
    ensures AgreeOutside(ProxyStream(s, w, remotePath, rangeHeader).cache, s.cache, TouchedKeys(remotePath))
  {
    if remotePath in s.cache {
      AttemptCacheFrameAnyPath(s, w, remotePath, rangeHeader, s.cache[remotePath], false);
    } else {
      var resolved := ResolveRDUrl(s, w, TorrentioUrl(remotePath));
      if resolved.target.Some? {
        AttemptCacheFrameAnyPath(resolved.session, w, remotePath, rangeHeader, resolved.target.value, false);
      }
    }
  }

  /** A remote path that holds `/resolve/realdebrid/` itself: the route passes any rest
      of the request path as the remote path. */
  const MARKER_PATH := "a" + RESOLVE_MARKER + "b"

  /** As written, a resolve for `a/resolve/realdebrid/b` is cached under `a`: the entry a
      request for `a` reads is overwritten, and the path's own entry is never written. */
  lemma MarkerPathCachesUnderPrefix(s: Session, w: Upstream, rangeHeader: Option<string>)
    requires MARKER_PATH !in s.cache
    requires w.probe(|s.calls|).HeadReplied? && Truthy(w.probe(|s.calls|).location)
    requires !(w.fetch(|s.calls| + 1).FetchReplied? && w.fetch(|s.calls| + 1).status == 404)
    ensures var t := ProxyStream(s, w, MARKER_PATH, rangeHeader);
      var location := w.probe(|s.calls|).location.value;
      && t.cache == s.cache["a" := location]
      && MARKER_PATH !in t.cache
      && ("a" !in s.cache ==> !AgreeExcept(t.cache, s.cache, MARKER_PATH))
  {
    MarkerPathKey();
    var resolved := ResolveRDUrl(s, w, TorrentioUrl(MARKER_PATH));
    var location := w.probe(|s.calls|).location.value;
    assert resolved.session.cache == s.cache["a" := location];
    var t := FetchAndProxy(resolved.session, w, MARKER_PATH, rangeHeader, location, false);
    assert ProxyStream(s, w, MARKER_PATH, rangeHeader) == t;
    assert t.cache == resolved.session.cache;
  }

  /** The cache key of the Torrentio link of `a/resolve/realdebrid/b` is `a`. */
  lemma MarkerPathKey()
    ensures CacheKey(TorrentioUrl(MARKER_PATH)) == Some("a")
    ensures MARKER_PATH != "a"
  {
    assert MARKER_PATH == "a" + RESOLVE_MARKER + "b";
    assert OccursAt(MARKER_PATH, RESOLVE_MARKER, 1) by {
      assert MARKER_PATH[1..1 + |RESOLVE_MARKER|] == RESOLVE_MARKER;
    }
    assert !OccursAt(MARKER_PATH, RESOLVE_MARKER, 0) by {
      assert MARKER_PATH[0] == 'a' && RESOLVE_MARKER[0] == '/';
    }
    IndexOfAfterPrefix("a", RESOLVE_MARKER, "b");
    CacheKeyOfTorrentioUrl(MARKER_PATH);
    assert MARKER_PATH[..1] == "a";
  }

  /** `resolveRDUrl` with the result cached under the remote path it was called for, the
      key the lookup and the eviction use. */
  function ResolveForPath(s: Session, w: Upstream, remotePath: string): (r: Resolved)
    ensures r.target == ResolveRDUrl(s, w, TorrentioUrl(remotePath)).target
    ensures r.session.reply == s.reply && r.session.calls == s.calls + [Probe(TorrentioUrl(remotePath))]
  {
    var resolved := ResolveRDUrl(s, w, TorrentioUrl(remotePath));
    var cache := if resolved.target.Some? && remotePath != "" then s.cache[remotePath := resolved.target.value] else s.cache;
    resolved.(session := resolved.session.(cache := cache))
  }

  /** Keyed by the remote path, a resolve changes no cache entry but the path's own, for
      every remote path. */
  lemma ResolveForPathFrame(s: Session, w: Upstream, remotePath: string)
    ensures AgreeExcept(ResolveForPath(s, w, remotePath).session.cache, s.cache, remotePath)
  {
  }

  /** For the remote paths without `/resolve/realdebrid/` the keyed resolve is the one the
      code makes: the correction changes nothing else. */
  lemma ResolveForPathAgrees(s: Session, w: Upstream, remotePath: string)
    requires !Contains(remotePath, RESOLVE_MARKER)
    ensures ResolveForPath(s, w, remotePath) == ResolveRDUrl(s, w, TorrentioUrl(remotePath))
  {
    ResolveCachesUnderRemotePath(s, w, remotePath);
  }

  /** Keyed by the remote path, the resolve for `a/resolve/realdebrid/b` writes that path's
      own entry and leaves the entry of `a` alone. */
  lemma MarkerPathKeyedByPath(s: Session, w: Upstream)
    requires w.probe(|s.calls|).HeadReplied? && Truthy(w.probe(|s.calls|).location)
    ensures var r := ResolveForPath(s, w, MARKER_PATH);
      && r.session.cache == s.cache[MARKER_PATH := w.probe(|s.calls|).location.value]
      && ("a" in r.session.cache <==> "a" in s.cache)
  {
    assert MARKER_PATH != "a" by {
      assert |MARKER_PATH| == 2 + |RESOLVE_MARKER|;
    }
  }

  /** On a miss, the resolved URL is fetched next and, unless that fetch is a 404, stays in
      the cache under the remote path, where the next request for it finds it. */
  lemma FreshUrlIsCached(s: Session, w: Upstream, remotePath: string, rangeHeader: Option<string>)
    requires remotePath !in s.cache && remotePath != "" && !Contains(remotePath, RESOLVE_MARKER)
    requires w.probe(|s.calls|).HeadReplied? && Truthy(w.probe(|s.calls|).location)
    requires !(w.fetch(|s.calls| + 1).FetchReplied? && w.fetch(|s.calls| + 1).status == 404)
    ensures var t := ProxyStream(s, w, remotePath, rangeHeader);
      var location := w.probe(|s.calls|).location.value;
      && t.cache == s.cache[remotePath := location]
      && t.calls == s.calls + [Probe(TorrentioUrl(remotePath)), Fetch(location, RangeSent(rangeHeader))]
  {
    ResolveCachesUnderRemotePath(s, w, remotePath);
  }

  /** A 404 on the URL just resolved on a miss is retried like a stale cached one: the
      Torrentio link is probed a second time. */
  lemma FreshNotFoundIsRetried(s: Session, w: Upstream, remotePath: string, rangeHeader: Option<string>)
    requires remotePath !in s.cache
    requires w.probe(|s.calls|).HeadReplied? && Truthy(w.probe(|s.calls|).location)
    requires w.fetch(|s.calls| + 1).FetchReplied? && w.fetch(|s.calls| + 1).status == 404
    ensures var extra := NewCalls(s, ProxyStream(s, w, remotePath, rangeHeader));
      && |extra| >= 3
      && extra[0] == extra[2] == Probe(TorrentioUrl(remotePath))
      && extra[1] == Fetch(w.probe(|s.calls|).location.value, RangeSent(rangeHeader))
  {
    var t := ProxyStream(s, w, remotePath, rangeHeader);
    var resolved := ResolveRDUrl(s, w, TorrentioUrl(remotePath));
    assert t == FetchAndProxy(resolved.session, w, remotePath, rangeHeader, resolved.target.value, false);
    FirstAttemptCalls(resolved.session, w, remotePath, rangeHeader, resolved.target.value);
    var rest := NewCalls(resolved.session, t);
    assert NewCalls(s, t) == [Probe(TorrentioUrl(remotePath))] + rest;
  }
}
