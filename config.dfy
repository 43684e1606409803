/**
 * The start-up configuration of `src/utils/config.ts`: the Torrentio base URL is
 * normalized (a `stremio://` link becomes `https://`, a trailing `/manifest.json` is
 * dropped) and must then be an `https://` URL; the public URL of the proxy must be
 * given. Where the program logs an error and exits, the model returns `Failure`.
 */
module Config {
  import opened Wrappers
  import opened Strings

  const STREMIO_SCHEME := "stremio://"
  const HTTPS_SCHEME := "https://"
  const MANIFEST_SUFFIX := "/manifest.json"

  const TORRENTIO_URL_ERROR := "TORRENTIO_URL must be defined and start with https://"
  const PROXY_SERVER_URL_ERROR := "PROXY_SERVER_URL must be defined"

  /** `AppConfig` without the port, which is read from the environment and not modelled. */
  datatype AppConfig = AppConfig(apiKey: Option<string>, torrentioUrl: string, proxyServerUrl: string)

  /** `rawUrl || ""`. */
  function OrEmpty(raw: Option<string>): string
  {
    if raw.Some? then raw.value else ""
  }

  /** `url.replace(/\/manifest\.json$/, "")`: one `/manifest.json` at the very end is dropped. */
  function StripManifest(url: string): (r: string)
    ensures EndsWith(url, MANIFEST_SUFFIX) ==> r + MANIFEST_SUFFIX == url
    ensures !EndsWith(url, MANIFEST_SUFFIX) ==> r == url
  {
    if EndsWith(url, MANIFEST_SUFFIX) then url[..|url| - |MANIFEST_SUFFIX|] else url
  }

  /** `normalizeAndValidateTorrentioUrl(rawUrl)`. */
  function NormalizeAndValidateTorrentioUrl(raw: Option<string>): (r: Result<string, string>)
    ensures r.Success? ==> StartsWith(r.value, HTTPS_SCHEME)
    ensures r.Failure? ==> r.error == TORRENTIO_URL_ERROR
    ensures r.Success? ==> StartsWith(OrEmpty(raw), HTTPS_SCHEME) || StartsWith(OrEmpty(raw), STREMIO_SCHEME)
    ensures r.Success? && StartsWith(OrEmpty(raw), HTTPS_SCHEME) ==> r.value == StripManifest(OrEmpty(raw))
    ensures r.Success? && StartsWith(OrEmpty(raw), STREMIO_SCHEME) ==>
      r.value == StripManifest(HTTPS_SCHEME + OrEmpty(raw)[|STREMIO_SCHEME|..])
  {
    var given := OrEmpty(raw);
    var url := if StartsWith(given, STREMIO_SCHEME) then ReplaceFirst(given, STREMIO_SCHEME, HTTPS_SCHEME) else given;
    var stripped := StripManifest(url);
    if !StartsWith(stripped, HTTPS_SCHEME) then Failure(TORRENTIO_URL_ERROR)
    else
      StrippedKeepsPrefix(url, HTTPS_SCHEME);
      if StartsWith(given, STREMIO_SCHEME) then
        ReplaceFirstAtStart(given, STREMIO_SCHEME, HTTPS_SCHEME);
        FirstCharDiffers(given, HTTPS_SCHEME);
        Success(stripped)
      else Success(stripped)
  }

  /** A prefix of what `StripManifest` leaves is a prefix of its input. */
  lemma StrippedKeepsPrefix(url: string, prefix: string)
    requires StartsWith(StripManifest(url), prefix)
    ensures StartsWith(url, prefix)
  {
    var r := StripManifest(url);
    if EndsWith(url, MANIFEST_SUFFIX) {
      assert url[..|prefix|] == (r + MANIFEST_SUFFIX)[..|prefix|] == r[..|prefix|];
    }
  }

  /** `validateProxyServerUrl(url)`. */
  function ValidateProxyServerUrl(url: Option<string>): (r: Result<string, string>)
    ensures r.Success? <==> Truthy(url)
    ensures r.Success? ==> r.value == url.value
    ensures r.Failure? ==> r.error == PROXY_SERVER_URL_ERROR
  {
    if !Truthy(url) then Failure(PROXY_SERVER_URL_ERROR) else Success(url.value)
  }

  /** The `config` object, built from `API_KEY`, `TORRENTIO_URL` and `PROXY_SERVER_URL`
      in that order: the first check that fails ends start-up. */
  function LoadConfig(apiKey: Option<string>, torrentioUrl: Option<string>, proxyServerUrl: Option<string>)
    : (r: Result<AppConfig, string>)
    ensures r.Success? <==>
      NormalizeAndValidateTorrentioUrl(torrentioUrl).Success? && Truthy(proxyServerUrl)
    ensures r.Success? ==>
      && r.value.apiKey == apiKey
      && r.value.torrentioUrl == NormalizeAndValidateTorrentioUrl(torrentioUrl).value
      && StartsWith(r.value.torrentioUrl, HTTPS_SCHEME)
      && r.value.proxyServerUrl == proxyServerUrl.value && r.value.proxyServerUrl != ""
    ensures NormalizeAndValidateTorrentioUrl(torrentioUrl).Failure? ==> r == Failure(TORRENTIO_URL_ERROR)
    ensures NormalizeAndValidateTorrentioUrl(torrentioUrl).Success? && !Truthy(proxyServerUrl) ==>
      r == Failure(PROXY_SERVER_URL_ERROR)
  {
    match NormalizeAndValidateTorrentioUrl(torrentioUrl)
    case Failure(e) => Failure(e)
    case Success(base) =>
      match ValidateProxyServerUrl(proxyServerUrl)
      case Failure(e) => Failure(e)
      case Success(proxy) => Success(AppConfig(apiKey, base, proxy))
  }

  /** A `stremio://` link is read as the `https://` link with the same rest. */
  lemma StremioSchemeRewritten(rest: string)
    ensures NormalizeAndValidateTorrentioUrl(Some(STREMIO_SCHEME + rest)) ==
            NormalizeAndValidateTorrentioUrl(Some(HTTPS_SCHEME + rest))
  {
    var url := STREMIO_SCHEME + rest;
    assert url[..|STREMIO_SCHEME|] == STREMIO_SCHEME;
    ReplaceFirstAtStart(url, STREMIO_SCHEME, HTTPS_SCHEME);
    assert url[|STREMIO_SCHEME|..] == rest;
    FirstCharDiffers(HTTPS_SCHEME + rest, STREMIO_SCHEME);
  }

  /** An `https://` URL is taken as given once one trailing `/manifest.json` is removed;
      only one is removed. */
  lemma ManifestStripped(base: string)
    requires StartsWith(base, HTTPS_SCHEME)
    ensures NormalizeAndValidateTorrentioUrl(Some(base + MANIFEST_SUFFIX)) == Success(base)
    ensures !EndsWith(base, MANIFEST_SUFFIX) ==> NormalizeAndValidateTorrentioUrl(Some(base)) == Success(base)
  {
    var url := base + MANIFEST_SUFFIX;
    assert url[|url| - |MANIFEST_SUFFIX|..] == MANIFEST_SUFFIX;
    assert url[..|url| - |MANIFEST_SUFFIX|] == base;
    HttpsIsNotStremio(url);
    HttpsIsNotStremio(base);
  }

  /** An `https://` string does not start with `stremio://`. */
  lemma HttpsIsNotStremio(url: string)
    requires StartsWith(url, HTTPS_SCHEME)
    ensures !StartsWith(url, STREMIO_SCHEME)
  {
    FirstCharDiffers(url, STREMIO_SCHEME);
  }

  /** A plain `http://` URL is refused, whatever follows the scheme. */
  lemma HttpRejected(rest: string)
    ensures NormalizeAndValidateTorrentioUrl(Some("http://" + rest)) == Failure(TORRENTIO_URL_ERROR)
  {
    var url := "http://" + rest;
    FirstCharDiffers(url, STREMIO_SCHEME);
    var stripped := StripManifest(url);
    if |stripped| >= |HTTPS_SCHEME| {
      assert stripped[4] == url[4];
    }
  }

  /** An unset or empty `TORRENTIO_URL` is refused. */
  lemma MissingTorrentioUrlRejected()
    ensures NormalizeAndValidateTorrentioUrl(None) == Failure(TORRENTIO_URL_ERROR)
    ensures NormalizeAndValidateTorrentioUrl(Some("")) == Failure(TORRENTIO_URL_ERROR)
  {
    assert !StartsWith("", STREMIO_SCHEME);
    assert StripManifest("") == "";
  }
}
