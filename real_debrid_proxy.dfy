/**
 * `src/services/realDebrid.ts` as the program it is: a service object holding the
 * process-wide `resolvedUrlCache`, whose methods probe and fetch upstream, update the
 * cache in place, and write to the client response as they go. Each method is proved
 * to leave the cache, the upstream call log and the client response exactly as the
 * functions of module `RealDebrid` say.
 */
module RealDebridProxy {
  import opened Wrappers
  import opened Strings
  import opened Http
  import opened RealDebrid

  /** The upstream servers as the proxy reaches them: every call is logged and answered
      as `world` says for a call at that position. */
  class UpstreamClient {
    const world: Upstream
    var calls: seq<Call>

    constructor (world: Upstream)
      ensures this.world == world && calls == []
    {
      this.world := world;
      calls := [];
    }

    /** `fetch(url, { method: "HEAD", redirect: "manual" })`. */
    method Head(url: string) returns (outcome: HeadOutcome)
      modifies this
      ensures calls == old(calls) + [Probe(url)]
      ensures outcome == world.probe(|old(calls)|)
    {
      outcome := world.probe(|calls|);
      calls := calls + [Probe(url)];
    }

    /** `fetch(url, { headers, signal })`, with a `Range` header when `range` is present. */
    method Get(url: string, range: Option<string>) returns (outcome: FetchOutcome)
      modifies this
      ensures calls == old(calls) + [Fetch(url, range)]
      ensures outcome == world.fetch(|old(calls)|)
    {
      outcome := world.fetch(|calls|);
      calls := calls + [Fetch(url, range)];
    }
  }

  /** What one `reader.read()` gives: a chunk, `done`, or a rejection. */
  datatype ReadResult = Value(chunk: Chunk) | EndOfBody | ReadError

  /** `body.getReader()`: hands out the chunks of `body` one by one, then its end. */
  class BodyReader {
    const body: Body
    var pos: nat

    constructor (body: Body)
      ensures this.body == body && pos == 0
    {
      this.body := body;
      pos := 0;
    }

    method Read() returns (r: ReadResult)
      requires pos <= |body.chunks|
      modifies this
      ensures old(pos) < |body.chunks| ==> r == Value(body.chunks[old(pos)]) && pos == old(pos) + 1
      ensures old(pos) == |body.chunks| ==>
        pos == old(pos) && r == (if body.end == Done then EndOfBody else ReadError)
    {
      if pos < |body.chunks| {
        r := Value(body.chunks[pos]);
        pos := pos + 1;
      } else if body.end == Done {
        r := EndOfBody;
      } else {
        r := ReadError;
      }
    }
  }

  /** `if (!res.headersSent) res.status(code).send(text)`. */
  method SendIfUnsent(res: ClientResponse, code: int, text: string)
    modifies res
    ensures res.State() == GuardedSend(old(res.State()), code, text)
  {
    if !res.headersSent {
      res.Status(code);
      res.Send(text);
    }
  }

  /** `proxyResp.headers.forEach((val, key) => res.setHeader(key, val))`. */
  method CopyHeaders(headers: seq<Header>, res: ClientResponse)
    requires !res.headersSent
    modifies res
    ensures res.State() == old(res.State()).(headers := SetAll(old(res.headers), headers))
  {
    var i := 0;
    while i < |headers|
      invariant 0 <= i <= |headers|
      invariant res.State() == old(res.State()).(headers := SetAll(old(res.headers), headers[..i]))
    {
      assert headers[..i + 1][..i] == headers[..i];
      res.SetHeader(headers[i].name, headers[i].value);
      i := i + 1;
    }
    assert headers[..i] == headers;
  }

  /** `pump()`: copies chunks from `reader` to `res` until the body is done, then ends
      the response; a rejected read answers 502 unless the head has gone out. */
  method PumpBody(reader: BodyReader, res: ClientResponse)
    requires reader.pos == 0 && !res.ended
    modifies reader, res
    ensures res.State() == Pump(old(res.State()), reader.body)
  {
    ghost var start := res.State();
    while true
      invariant 0 <= reader.pos <= |reader.body.chunks|
      invariant res.State() == WriteAll(start, reader.body.chunks[..reader.pos])
      invariant !res.ended
      decreases |reader.body.chunks| - reader.pos
    {
      ghost var before := reader.pos;
      var r := reader.Read();
      match r
      case EndOfBody =>
        break;
      case ReadError =>
        assert reader.body.chunks[..reader.pos] == reader.body.chunks;
        SendIfUnsent(res, 502, STREAM_FAILED);
        return;
      case Value(c) =>
        assert reader.body.chunks[..reader.pos][..before] == reader.body.chunks[..before];
        res.Write(c);
    }
    assert reader.body.chunks[..reader.pos] == reader.body.chunks;
    res.End();
  }

  /** The resolver and proxy of `src/services/realDebrid.ts`, with its module-level cache. */
  class RealDebridService {
    var resolvedUrlCache: map<string, string>

    constructor ()
      ensures resolvedUrlCache == map[]
    {
      resolvedUrlCache := map[];
    }

    /** The state a request sees: the cache, the client response and the upstream log. */
    function SessionWith(res: ClientResponse, upstream: UpstreamClient): Session
      reads this, res, upstream
    {
      Session(resolvedUrlCache, res.State(), upstream.calls)
    }

    /** `resolveRDUrl(torrentioUrl)`. A resolve never reads or writes the client
        response, so the specification function is given a fresh one; any other reply
        would give the same target, cache and call log. */
    method ResolveRDUrl(torrentioUrl: string, upstream: UpstreamClient) returns (target: Option<string>)
      modifies this, upstream
      ensures
        var r := RealDebrid.ResolveRDUrl(Session(old(resolvedUrlCache), Fresh(), old(upstream.calls)), upstream.world, torrentioUrl);
        target == r.target && resolvedUrlCache == r.session.cache && upstream.calls == r.session.calls
    {
      var resp := upstream.Head(torrentioUrl);
      if resp.HeadFailed? {
        return None;
      }
      var redirectedUrl := resp.location;
      if !Truthy(redirectedUrl) {
        return None;
      }
      var cacheKey := CacheKey(torrentioUrl);
      if Truthy(cacheKey) {
        resolvedUrlCache := resolvedUrlCache[cacheKey.value := redirectedUrl.value];
      }
      return redirectedUrl;
    }

    /** What an ok upstream response does: status, headers, then the body. */
    method Relay(status: int, headers: FetchHeaders, body: Option<Body>, res: ClientResponse)
      requires !res.headersSent && !res.ended
      modifies res
      ensures res.State() == RealDebrid.Relay(old(res.State()), status, headers, body)
    {
      res.Status(status);
      CopyHeaders(headers, res);
      match body
      case None =>
        SendIfUnsent(res, 502, NO_BODY);
      case Some(b) =>
        var reader := new BodyReader(b);
        PumpBody(reader, res);
    }

    /** `tryFetchAndProxy(url, isRetry)` inside the request for `remotePath`. */
    method TryFetchAndProxy(
      remotePath: string, rangeHeader: Option<string>, url: string, isRetry: bool,
      upstream: UpstreamClient, res: ClientResponse)
      requires !res.headersSent && !res.ended
      modifies this, upstream, res
      ensures SessionWith(res, upstream) ==
        FetchAndProxy(old(SessionWith(res, upstream)), upstream.world, remotePath, rangeHeader, url, isRetry)
      decreases if isRetry then 0 else 1
    {
      var headers := if Truthy(rangeHeader) then rangeHeader else None;
      var proxyResp := upstream.Get(url, headers);
      if proxyResp.FetchFailed? {
        SendIfUnsent(res, 502, PROXY_FAILED);
        return;
      }
      if proxyResp.status == 404 && !isRetry {
        resolvedUrlCache := resolvedUrlCache - {remotePath};
        var retryUrl := ResolveRDUrl(TorrentioUrl(remotePath), upstream);
        if retryUrl.None? {
          SendIfUnsent(res, 502, FAILED_AFTER_RETRY);
          return;
        }
        TryFetchAndProxy(remotePath, rangeHeader, retryUrl.value, true, upstream, res);
        return;
      }
      if !IsOk(proxyResp.status) {
        SendIfUnsent(res, proxyResp.status, FAILED_TO_FETCH);
        return;
      }
      Relay(proxyResp.status, proxyResp.headers, proxyResp.body, res);
    }

    /** `tryProxyStreamWithFallback(remotePath, rangeHeader, res)`. */
    method TryProxyStreamWithFallback(
      remotePath: string, rangeHeader: Option<string>, upstream: UpstreamClient, res: ClientResponse)
      requires !res.headersSent && !res.ended
      modifies this, upstream, res
      ensures SessionWith(res, upstream) ==
        ProxyStream(old(SessionWith(res, upstream)), upstream.world, remotePath, rangeHeader)
    {
      if remotePath in resolvedUrlCache {
        TryFetchAndProxy(remotePath, rangeHeader, resolvedUrlCache[remotePath], false, upstream, res);
        return;
      }
      var newUrl := ResolveRDUrl(TorrentioUrl(remotePath), upstream);
      if newUrl.None? {
        SendIfUnsent(res, 502, FAILED_TO_RESOLVE);
        return;
      }
      TryFetchAndProxy(remotePath, rangeHeader, newUrl.value, false, upstream, res);
    }
  }
}
