/**
 * The stream list handler of `src/routes/stream.ts`: it asks the configured Torrentio
 * instance for the streams of a title and rewrites every Real-Debrid stream so that
 * it points at this proxy (with the access key appended when one is configured),
 * leaving every other stream and every other field as it was.
 */
module StreamRoute {
  import opened Wrappers
  import opened Strings
  import Config

  const TORRENTIO_ORIGIN := "https://torrentio.strem.fun"
  const REALDEBRID_SEGMENT := "/realdebrid/"
  const API_KEY_PARAM := "api_key="

  /** A Stremio stream: its `url` (absent when upstream sent none) and its other fields
      (`title`, `name`, behaviour hints, ...) as JSON text by name. */
  datatype StremioStream = StremioStream(url: Option<string>, fields: map<string, string>)

  /** The body of Torrentio's answer; `None` is a missing `streams` field. */
  datatype TorrentioResponse = TorrentioResponse(streams: Option<seq<StremioStream>>)

  /** What the handler does: the URL it requests, and the `streams` it answers with. */
  datatype StreamReply = StreamReply(apiUrl: string, streams: seq<StremioStream>)

  /** `${config.torrentioUrl}/stream/${type}/${id}.json`. */
  function ApiUrl(torrentioUrl: string, kind: string, id: string): string
  {
    torrentioUrl + "/stream/" + kind + "/" + id + ".json"
  }

  /** The new URL of a Real-Debrid stream: the first Torrentio origin replaced by the
      proxy's URL, then `api_key=<encoded key>` after `&` or `?` when a key is set. */
  function ProxiedUrl(url: string, proxyServerUrl: string, apiKey: Option<string>, encode: string -> string): (r: string)
    ensures var base := ReplaceFirst(url, TORRENTIO_ORIGIN, proxyServerUrl);
      && StartsWith(r, base)
      && (!Truthy(apiKey) ==> r == base)
      && (Truthy(apiKey) ==>
            && EndsWith(r, API_KEY_PARAM + encode(apiKey.value))
            && |r| == |base| + 1 + |API_KEY_PARAM| + |encode(apiKey.value)|)
  {
    var newUrl := ReplaceFirst(url, TORRENTIO_ORIGIN, proxyServerUrl);
    if Truthy(apiKey) then
      var sep := if Contains(newUrl, "?") then "&" else "?";
      newUrl + sep + API_KEY_PARAM + encode(apiKey.value)
    else newUrl
  }

  /** The callback of `streams.map`; `None` when the stream has no `url`, where
      `stream.url.includes` throws. */
  function RewriteStream(stream: StremioStream, proxyServerUrl: string, apiKey: Option<string>, encode: string -> string)
    : (r: Option<StremioStream>)
    ensures r.None? <==> stream.url.None?
    ensures r.Some? ==> r.value.fields == stream.fields && r.value.url.Some?
    ensures r.Some? && !Contains(stream.url.value, REALDEBRID_SEGMENT) ==> r.value == stream
    ensures r.Some? && Contains(stream.url.value, REALDEBRID_SEGMENT) ==>
      StartsWith(r.value.url.value, ReplaceFirst(stream.url.value, TORRENTIO_ORIGIN, proxyServerUrl))
    ensures r.Some? && Contains(stream.url.value, REALDEBRID_SEGMENT) ==>
      r.value.url == Some(ProxiedUrl(stream.url.value, proxyServerUrl, apiKey, encode))
  {
    match stream.url
    case None => None
    case Some(url) =>
      if !Contains(url, REALDEBRID_SEGMENT) then Some(stream)
      else Some(stream.(url := Some(ProxiedUrl(url, proxyServerUrl, apiKey, encode))))
  }

  /** `streams.map(...)`; `None` when the callback throws for some stream. */
  function RewriteAll(streams: seq<StremioStream>, proxyServerUrl: string, apiKey: Option<string>, encode: string -> string)
    : (r: Option<seq<StremioStream>>)
    ensures r.Some? ==> |r.value| == |streams|
    ensures r.Some? <==> forall i :: 0 <= i < |streams| ==> streams[i].url.Some?
    ensures r.Some? ==> forall i :: 0 <= i < |streams| ==>
      RewriteStream(streams[i], proxyServerUrl, apiKey, encode) == Some(r.value[i])
    decreases |streams|
  {
    if streams == [] then Some([])
    else
      match RewriteStream(streams[0], proxyServerUrl, apiKey, encode)
      case None => None
      case Some(first) =>
        match RewriteAll(streams[1..], proxyServerUrl, apiKey, encode)
        case None =>
          assert exists i :: 0 <= i < |streams[1..]| && streams[1..][i].url.None?;
          None
        case Some(rest) =>
          assert forall i :: 1 <= i < |streams| ==> streams[i] == streams[1..][i - 1];
          Some([first] + rest)
  }

  /** `streamHandler` for `type` and `id`, given what the request to Torrentio gave back
      (`None` when it failed). Any failure, including a stream without a `url`, ends in
      an empty list. */
  function StreamHandler(
    config: Config.AppConfig, kind: string, id: string, upstream: Option<TorrentioResponse>, encode: string -> string)
    : (r: StreamReply)
    ensures r.apiUrl == ApiUrl(config.torrentioUrl, kind, id)
    ensures upstream.None? || upstream.value.streams.None? ==> r.streams == []
    ensures upstream.Some? && upstream.value.streams.Some? ==>
      var streams := upstream.value.streams.value;
      if forall i :: 0 <= i < |streams| ==> streams[i].url.Some? then
        && |r.streams| == |streams|
        && forall i :: 0 <= i < |streams| ==>
             RewriteStream(streams[i], config.proxyServerUrl, config.apiKey, encode) == Some(r.streams[i])
      else r.streams == []
  {
    var apiUrl := ApiUrl(config.torrentioUrl, kind, id);
    match upstream
    case None => StreamReply(apiUrl, [])
    case Some(data) =>
      var streams := if data.streams.Some? then data.streams.value else [];
      match RewriteAll(streams, config.proxyServerUrl, config.apiKey, encode)
      case None => StreamReply(apiUrl, [])
      case Some(rewritten) => StreamReply(apiUrl, rewritten)
  }

  /** Every stream keeps its place and every field but `url`; a stream that is not a
      Real-Debrid one is returned as it came. */
  lemma RewriteKeepsStreams(
    streams: seq<StremioStream>, proxyServerUrl: string, apiKey: Option<string>, encode: string -> string, i: nat)
    requires RewriteAll(streams, proxyServerUrl, apiKey, encode).Some? && i < |streams|
    ensures var out := RewriteAll(streams, proxyServerUrl, apiKey, encode).value;
      && out[i].fields == streams[i].fields
      && out[i].url.Some?
      && (!Contains(streams[i].url.value, REALDEBRID_SEGMENT) ==> out[i] == streams[i])
  {
  }

  /** A Real-Debrid stream served from the Torrentio origin is sent to the same path on
      the proxy, followed by the access key when one is set. */
  lemma RealDebridStreamProxied(path: string, proxyServerUrl: string, apiKey: Option<string>, encode: string -> string)
    ensures var proxied := proxyServerUrl + path;
      ProxiedUrl(TORRENTIO_ORIGIN + path, proxyServerUrl, apiKey, encode) ==
        if Truthy(apiKey) then proxied + (if Contains(proxied, "?") then "&" else "?") + API_KEY_PARAM + encode(apiKey.value)
        else proxied
  {
    var url := TORRENTIO_ORIGIN + path;
    assert url[..|TORRENTIO_ORIGIN|] == TORRENTIO_ORIGIN;
    ReplaceFirstAtStart(url, TORRENTIO_ORIGIN, proxyServerUrl);
    assert url[|TORRENTIO_ORIGIN|..] == path;
  }

  /** With a key set, the key goes into the query: the rewritten URL has a `?`, and the key
      follows `&` exactly when the URL already had a query. Without a key nothing is added. */
  lemma ApiKeyAppended(url: string, proxyServerUrl: string, apiKey: Option<string>, encode: string -> string)
    ensures var base := ReplaceFirst(url, TORRENTIO_ORIGIN, proxyServerUrl);
      var r := ProxiedUrl(url, proxyServerUrl, apiKey, encode);
      if Truthy(apiKey) then
        && Contains(r, "?")
        && (r == base + "&" + API_KEY_PARAM + encode(apiKey.value) <==> Contains(base, "?"))
        && (r == base + "?" + API_KEY_PARAM + encode(apiKey.value) <==> !Contains(base, "?"))
      else r == base
  {
    var base := ReplaceFirst(url, TORRENTIO_ORIGIN, proxyServerUrl);
    if Truthy(apiKey) {
      var tail := API_KEY_PARAM + encode(apiKey.value);
      if Contains(base, "?") {
        var i := IndexOf(base, "?", 0).value;
        var r := ProxiedUrl(url, proxyServerUrl, apiKey, encode);
        assert r == base + ("&" + tail);
        ContainsInPrefix(base, "&" + tail, "?", i);
        assert r != base + "?" + tail by {
          assert r[|base|] == '&';
          assert (base + "?" + tail)[|base|] == '?';
        }
      } else {
        var r := ProxiedUrl(url, proxyServerUrl, apiKey, encode);
        assert r == base + "?" + tail;
        assert OccursAt(r, "?", |base|) by {
          assert r[|base|..|base| + 1] == "?";
        }
        assert IndexOf(r, "?", 0).Some?;
        assert r != base + "&" + tail by {
          assert r[|base|] == '?';
          assert (base + "&" + tail)[|base|] == '&';
        }
      }
    }
  }

  /** An occurrence in `s` is an occurrence in `s + t`. */
  lemma ContainsInPrefix(s: string, t: string, pat: string, i: nat)
    requires OccursAt(s, pat, i)
    ensures Contains(s + t, pat)
  {
    assert (s + t)[i..i + |pat|] == s[i..i + |pat|];
    assert OccursAt(s + t, pat, i);
    assert IndexOf(s + t, pat, 0).Some?;
  }
}
