/**
 * `forwardStreamHeaders`: copies an upstream (Real-Debrid) response's headers to
 * the client response, dropping hop-by-hop headers, adding `Accept-Ranges` and
 * the CORS headers when they are missing, and collecting advisory warnings about
 * the range metadata. Nothing here ever refuses to forward.
 */
module HeaderForwarding {
  import opened Wrappers
  import opened Strings
  import opened Http

  /** Connection-specific headers (section 7.6.1 of RFC 9110) and their relatives. */
  const BLOCKED_HEADERS: set<string> := {"transfer-encoding", "connection", "keep-alive", "upgrade", "trailer"}

  // Header names are compared case-insensitively by Fetch and by Node; the model
  // writes the names the proxy synthesizes in lower case.
  const ACCEPT_RANGES := "accept-ranges"
  const CONTENT_RANGE := "content-range"
  const ALLOW_ORIGIN := "access-control-allow-origin"
  const ALLOW_HEADERS := "access-control-allow-headers"
  const EXPOSE_HEADERS := "access-control-expose-headers"

  /** The headers synthesized when upstream lacks them, with their default values. */
  const DEFAULTS: map<string, string> := map[
    ACCEPT_RANGES := "bytes",
    ALLOW_ORIGIN := "*",
    ALLOW_HEADERS := "*",
    EXPOSE_HEADERS := "Content-Range, Content-Length, Accept-Ranges"]

  const WARN_ACCEPT_RANGES := "Added missing Accept-Ranges header"
  // In two pieces: the verifier does not look inside a literal this long character by character.
  const WARN_MISSING_CONTENT_RANGE := "HTTP 206 response " + "missing Content-Range header"
  const WARN_INVALID_CONTENT_RANGE := "Invalid Content-Range format: "
  const WARN_RANGE_IGNORED := "Range request returned 200 OK instead of 206"

  datatype HeaderForwardingResult = HeaderForwardingResult(
    forwarded: nat,
    blocked: nat,
    added: nat,
    warnings: seq<string>)

  predicate IsBlocked(name: string)
  {
    Lower(name) in BLOCKED_HEADERS
  }

  /** The upstream headers that are copied, in upstream order. */
  function Forwardable(h: seq<Header>): seq<Header>
    decreases |h|
  {
    if h == [] then []
    else
      var init, last := h[..|h| - 1], h[|h| - 1];
      if IsBlocked(last.name) then Forwardable(init) else Forwardable(init) + [last]
  }

  /** The upstream headers that are dropped. */
  function Dropped(h: seq<Header>): seq<Header>
    decreases |h|
  {
    if h == [] then []
    else
      var init, last := h[..|h| - 1], h[|h| - 1];
      if IsBlocked(last.name) then Dropped(init) + [last] else Dropped(init)
  }

  /** The default headers upstream did not provide. */
  function Missing(source: seq<Header>): set<string>
  {
    set n | n in DEFAULTS.Keys && !Has(source, n)
  }

  /** The client's header table after the call: the forwardable upstream headers copied
      over the old table, then every missing default. */
  function ForwardedTable(base: map<string, string>, source: seq<Header>): map<string, string>
  {
    SetAll(base, Forwardable(source)) + map n | n in Missing(source) :: DEFAULTS[n]
  }

  predicate IsDigit(c: char) { '0' <= c <= '9' }

  /** One or more decimal digits (`\d+`). */
  predicate IsDigits(s: string)
  {
    |s| > 0 && forall i :: 0 <= i < |s| ==> IsDigit(s[i])
  }

  /** The index of the first non-digit at or after `i`. */
  function DigitsEnd(s: string, i: nat): (j: nat)
    requires i <= |s|
    ensures i <= j <= |s|
    ensures forall k :: i <= k < j ==> IsDigit(s[k])
    ensures j < |s| ==> !IsDigit(s[j])
    decreases |s| - i
  {
    if i < |s| && IsDigit(s[i]) then DigitsEnd(s, i + 1) else i
  }

  /** The recognizer for `^bytes \d+-\d+\/(\d+|\*)$`, scanning left to right. */
  predicate MatchesContentRange(s: string)
    ensures MatchesContentRange(s) ==>
      && |s| >= 11 && StartsWith(s, "bytes ")
      && (s[|s| - 1] == '*' || IsDigit(s[|s| - 1]))
  {
    && StartsWith(s, "bytes ")
    && var a := DigitsEnd(s, 6);
    && 6 < a < |s| && s[a] == '-'
    && var b := DigitsEnd(s, a + 1);
    && a + 1 < b < |s| && s[b] == '/'
    && (s[b + 1..] == "*" || IsDigits(s[b + 1..]))
  }

  /** The same language, stated as the shape of the value (section 14.4 of RFC 9110). */
  ghost predicate ContentRangeShape(s: string)
  {
    exists first, last, size ::
      IsDigits(first) && IsDigits(last) && (IsDigits(size) || size == "*")
      && s == "bytes " + first + "-" + last + "/" + size
  }

  /** The warnings of a 206 response about its `Content-Range`. */
  function ContentRangeWarnings(source: seq<Header>, statusCode: int): seq<string>
  {
    if statusCode != 206 then []
    else
      var contentRange := Get(source, CONTENT_RANGE);
      if !Truthy(contentRange) then [WARN_MISSING_CONTENT_RANGE]
      else if !MatchesContentRange(contentRange.value) then [WARN_INVALID_CONTENT_RANGE + contentRange.value]
      else []
  }

  /** The warnings about the range metadata: the `Content-Range` check of a 206 response,
      then the check that a range request did not get a plain 200. */
  function RangeWarnings(source: seq<Header>, statusCode: int, requestedRange: Option<string>): seq<string>
  {
    ContentRangeWarnings(source, statusCode)
    + (if Truthy(requestedRange) && statusCode == 200 then [WARN_RANGE_IGNORED] else [])
  }

  /** The warnings, in the order they are recorded. */
  function Warnings(source: seq<Header>, statusCode: int, requestedRange: Option<string>): seq<string>
  {
    (if Has(source, ACCEPT_RANGES) then [] else [WARN_ACCEPT_RANGES])
    + RangeWarnings(source, statusCode, requestedRange)
  }

  /** Step 1 of `forwardStreamHeaders`, the `forEach` over the upstream headers. */
  method CopyForwardable(source: seq<Header>, target: ClientResponse) returns (forwarded: nat, blocked: nat)
    requires !target.headersSent
    modifies target
    ensures target.State() == old(target.State()).(headers := SetAll(old(target.headers), Forwardable(source)))
    ensures forwarded == |Forwardable(source)| && blocked == |Dropped(source)|
  {
    forwarded, blocked := 0, 0;
    var i := 0;
    while i < |source|
      invariant 0 <= i <= |source|
      invariant target.State() == old(target.State()).(headers := SetAll(old(target.headers), Forwardable(source[..i])))
      invariant forwarded == |Forwardable(source[..i])| && blocked == |Dropped(source[..i])|
    {
      var h := source[i];
      ghost var prefix := source[..i];
      assert source[..i + 1][..i] == prefix;
      var lowerKey := Lower(h.name);
      if lowerKey in BLOCKED_HEADERS {
        blocked := blocked + 1;
      } else {
        ghost var done := Forwardable(prefix);
        assert (done + [h])[..|done|] == done;
        target.SetHeader(h.name, h.value);
        forwarded := forwarded + 1;
      }
      i := i + 1;
    }
    assert source[..i] == source;
  }

  /** Steps 3 and 4 of `forwardStreamHeaders`: the advisory checks of the range metadata. */
  method CheckRangeMetadata(source: seq<Header>, statusCode: int, requestedRange: Option<string>)
    returns (warnings: seq<string>)
    ensures warnings == RangeWarnings(source, statusCode, requestedRange)
  {
    warnings := [];
    if statusCode == 206 {
      var contentRange := Get(source, CONTENT_RANGE);
      if !Truthy(contentRange) {
        warnings := warnings + [WARN_MISSING_CONTENT_RANGE];
      } else if !MatchesContentRange(contentRange.value) {
        warnings := warnings + [WARN_INVALID_CONTENT_RANGE + contentRange.value];
      }
    }
    if Truthy(requestedRange) && statusCode == 200 {
      warnings := warnings + [WARN_RANGE_IGNORED];
    }
  }

  /** Copies the headers of `source` to `target` and reports what it did. */
  method ForwardStreamHeaders(
    source: FetchHeaders,
    target: ClientResponse,
    statusCode: int,
    requestedRange: Option<string>)
    returns (result: HeaderForwardingResult)
    requires !target.headersSent
    modifies target
    ensures target.State() == old(target.State()).(headers := ForwardedTable(old(target.headers), source))
    ensures result.forwarded == |Forwardable(source)| && result.blocked == |Dropped(source)|
    ensures result.added == |Missing(source)|
    ensures result.warnings == Warnings(source, statusCode, requestedRange)
  {
    var forwarded, blocked := CopyForwardable(source, target);
    result := HeaderForwardingResult(forwarded, blocked, 0, []);
    ghost var copied := target.headers;

    if !Has(source, ACCEPT_RANGES) {
      target.SetHeader(ACCEPT_RANGES, "bytes");
      result := result.(added := result.added + 1, warnings := result.warnings + [WARN_ACCEPT_RANGES]);
    }

    assert result.warnings == if Has(source, ACCEPT_RANGES) then [] else [WARN_ACCEPT_RANGES];

    var rangeWarnings := CheckRangeMetadata(source, statusCode, requestedRange);
    result := result.(warnings := result.warnings + rangeWarnings);
    assert result.warnings == Warnings(source, statusCode, requestedRange);

    if !Has(source, ALLOW_ORIGIN) {
      target.SetHeader(ALLOW_ORIGIN, "*");
      result := result.(added := result.added + 1);
    }
    if !Has(source, ALLOW_HEADERS) {
      target.SetHeader(ALLOW_HEADERS, "*");
      result := result.(added := result.added + 1);
    }
    if !Has(source, EXPOSE_HEADERS) {
      target.SetHeader(EXPOSE_HEADERS, "Content-Range, Content-Length, Accept-Ranges");
      result := result.(added := result.added + 1);
    }

    assert target.headers == ForwardedTable(old(target.headers), source) by {
      DefaultsInOrder(copied, source);
    }
    assert result.added == |Missing(source)| by {
      MissingCount(source);
    }
  }

  /** The four default names are distinct. */
  lemma DefaultNames()
    ensures DEFAULTS.Keys == {ACCEPT_RANGES, ALLOW_ORIGIN, ALLOW_HEADERS, EXPOSE_HEADERS}
    ensures |ACCEPT_RANGES| == 13 && |ALLOW_ORIGIN| == 27 && |ALLOW_HEADERS| == 28 && |EXPOSE_HEADERS| == 29
  {
  }

  /** `{name}` when upstream lacks `name`, else nothing. */
  function AbsentName(source: seq<Header>, name: string): set<string>
  {
    if Has(source, name) then {} else {name}
  }

  /** `Missing` spelled out default by default. */
  lemma MissingUnfolded(source: seq<Header>)
    ensures Missing(source) ==
      AbsentName(source, ACCEPT_RANGES) + AbsentName(source, ALLOW_ORIGIN)
      + AbsentName(source, ALLOW_HEADERS) + AbsentName(source, EXPOSE_HEADERS)
  {
    DefaultNames();
  }

  /** The four conditional names are distinct, so the size of their union is the number of
      absent defaults. */
  lemma MissingCount(source: seq<Header>)
    ensures |Missing(source)| ==
      (if Has(source, ACCEPT_RANGES) then 0 else 1)
      + (if Has(source, ALLOW_ORIGIN) then 0 else 1)
      + (if Has(source, ALLOW_HEADERS) then 0 else 1)
      + (if Has(source, EXPOSE_HEADERS) then 0 else 1)
  {
    MissingUnfolded(source);
    DefaultNames();
    var a, b := AbsentName(source, ACCEPT_RANGES), AbsentName(source, ALLOW_ORIGIN);
    var c, d := AbsentName(source, ALLOW_HEADERS), AbsentName(source, EXPOSE_HEADERS);
    assert a !! b;
    assert (a + b) !! c;
    assert (a + b + c) !! d;
  }

  /** Adding the missing defaults at once is the same as the four guarded `setHeader` calls. */
  lemma DefaultsInOrder(m: map<string, string>, source: seq<Header>)
    ensures m + (map n | n in Missing(source) :: DEFAULTS[n]) ==
      var m1 := if Has(source, ACCEPT_RANGES) then m else m[ACCEPT_RANGES := "bytes"];
      var m2 := if Has(source, ALLOW_ORIGIN) then m1 else m1[ALLOW_ORIGIN := "*"];
      var m3 := if Has(source, ALLOW_HEADERS) then m2 else m2[ALLOW_HEADERS := "*"];
      if Has(source, EXPOSE_HEADERS) then m3 else m3[EXPOSE_HEADERS := "Content-Range, Content-Length, Accept-Ranges"]
  {
    MissingUnfolded(source);
  }

  /** A header is copied exactly when upstream sent it and it is not blocked, and dropped
      exactly when upstream sent it and it is blocked. */
  lemma {:induction false} ForwardableMembers(h: seq<Header>, x: Header)
    ensures x in Forwardable(h) <==> x in h && !IsBlocked(x.name)
    ensures x in Dropped(h) <==> x in h && IsBlocked(x.name)
    decreases |h|
  {
    if h != [] {
      var init, last := h[..|h| - 1], h[|h| - 1];
      assert h == init + [last];
      ForwardableMembers(init, x);
    }
  }

  /** Every upstream header is either copied or dropped: none is lost and none is counted twice. */
  lemma {:induction false} ForwardablePartition(h: seq<Header>)
    ensures multiset(Forwardable(h)) + multiset(Dropped(h)) == multiset(h)
    ensures |Forwardable(h)| + |Dropped(h)| == |h|
    decreases |h|
  {
    if h != [] {
      var init, last := h[..|h| - 1], h[|h| - 1];
      assert h == init + [last];
      ForwardablePartition(init);
    }
  }

  /** When upstream sends no blocked header, every header is copied, in upstream order. */
  lemma {:induction false} ForwardableOfUnblocked(h: seq<Header>)
    requires forall i :: 0 <= i < |h| ==> !IsBlocked(h[i].name)
    ensures Forwardable(h) == h && Dropped(h) == []
    decreases |h|
  {
    if h != [] {
      var init := h[..|h| - 1];
      assert h == init + [h[|h| - 1]];
      ForwardableOfUnblocked(init);
    }
  }

  /** The call never puts a blocked header on the client response. */
  lemma NoBlockedHeaderAdded(base: map<string, string>, source: FetchHeaders, k: string)
    requires k in BLOCKED_HEADERS
    ensures k in ForwardedTable(base, source) <==> k in base
    ensures k in base ==> ForwardedTable(base, source)[k] == base[k]
  {
    var copied := Forwardable(source);
    assert !Has(copied, k) by {
      if Has(copied, k) {
        var i :| 0 <= i < |copied| && copied[i].name == k;
        ForwardableMembers(source, copied[i]);
        var j :| 0 <= j < |source| && source[j] == copied[i];
        LowerOfLowerCase(source[j].name);
      }
    }
    SetAllFrame(base, copied, k);
    DefaultNames();
    assert k !in Missing(source);
  }

  /** An upstream header that is not blocked reaches the client with its value unchanged. */
  lemma ForwardedValue(base: map<string, string>, source: FetchHeaders, x: Header)
    requires x in source && !IsBlocked(x.name)
    ensures x.name in ForwardedTable(base, source) && ForwardedTable(base, source)[x.name] == x.value
  {
    var copied := Forwardable(source);
    ForwardableMembers(source, x);
    forall y | y in copied && y.name == x.name
      ensures y == x
    {
      ForwardableMembers(source, y);
    }
    SetAllStores(base, copied, x);
    assert x.name !in Missing(source);
  }

  /** After the call the client has every default header (so `Accept-Ranges` and the three
      CORS headers are always present): upstream's value when upstream sent one, the
      default value otherwise. */
  lemma DefaultsPresent(base: map<string, string>, source: FetchHeaders, n: string)
    requires n in DEFAULTS
    ensures n in ForwardedTable(base, source)
    ensures ForwardedTable(base, source)[n] == if Has(source, n) then Get(source, n).value else DEFAULTS[n]
  {
    DefaultNames();
    if Has(source, n) {
      var v := Get(source, n).value;
      var i :| 0 <= i < |source| && source[i] == Header(n, v);
      assert |Lower(n)| == |n|;
      ForwardedValue(base, source, source[i]);
    }
  }

  /** At most the four defaults are added, and none when upstream sent all of them. */
  lemma AddedBound(source: seq<Header>)
    ensures |Missing(source)| <= 4
    ensures |Missing(source)| == 0 <==>
      Has(source, ACCEPT_RANGES) && Has(source, ALLOW_ORIGIN) && Has(source, ALLOW_HEADERS) && Has(source, EXPOSE_HEADERS)
  {
    MissingCount(source);
  }

  /** What each warning means: it is recorded exactly when its condition holds, and there
      are never more than two, since the 206 check and the 200 check exclude each other. */
  lemma WarningsExplained(source: seq<Header>, statusCode: int, requestedRange: Option<string>, v: string)
    ensures var w := Warnings(source, statusCode, requestedRange);
      && |w| <= 2
      && (WARN_ACCEPT_RANGES in w <==> !Has(source, ACCEPT_RANGES))
      && (WARN_MISSING_CONTENT_RANGE in w <==> statusCode == 206 && !Truthy(Get(source, CONTENT_RANGE)))
      && (WARN_INVALID_CONTENT_RANGE + v in w <==>
            statusCode == 206 && Get(source, CONTENT_RANGE) == Some(v) && v != "" && !MatchesContentRange(v))
      && (WARN_RANGE_IGNORED in w <==> Truthy(requestedRange) && statusCode == 200)
  {
    var invalid := WARN_INVALID_CONTENT_RANGE + v;
    assert invalid[0] == 'I';
    assert WARN_ACCEPT_RANGES[0] == 'A' && WARN_MISSING_CONTENT_RANGE[0] == 'H' && WARN_RANGE_IGNORED[0] == 'R';
    var contentRange := Get(source, CONTENT_RANGE);
    if contentRange.Some? {
      var other := WARN_INVALID_CONTENT_RANGE + contentRange.value;
      assert other == invalid ==> contentRange.value == v by {
        if other == invalid {
          assert other[|WARN_INVALID_CONTENT_RANGE|..] == contentRange.value;
          assert invalid[|WARN_INVALID_CONTENT_RANGE|..] == v;
        }
      }
      assert other[0] == 'I';
    }
  }

  /** `DigitsEnd` stops at the first non-digit. */
  lemma DigitsEndAt(s: string, i: nat, j: nat)
    requires i <= j < |s|
    requires forall k :: i <= k < j ==> IsDigit(s[k])
    requires !IsDigit(s[j])
    ensures DigitsEnd(s, i) == j
  {
  }

  /** Every value the scanner accepts has the form `bytes <first>-<last>/<size>`. */
  lemma MatchedHasShape(s: string)
    requires MatchesContentRange(s)
    ensures ContentRangeShape(s)
  {
    var a := DigitsEnd(s, 6);
    var b := DigitsEnd(s, a + 1);
    var first, last, size := s[6..a], s[a + 1..b], s[b + 1..];
    assert s[..6] == "bytes ";
    assert s == s[..6] + first + [s[a]] + last + [s[b]] + size;
    assert s == "bytes " + first + "-" + last + "/" + size;
    assert IsDigits(first) && IsDigits(last) && (IsDigits(size) || size == "*");
  }

  /** The scanner accepts every value of the form `bytes <first>-<last>/<size>`. */
  lemma ShapeIsMatched(first: string, last: string, size: string)
    requires IsDigits(first) && IsDigits(last) && (IsDigits(size) || size == "*")
    ensures MatchesContentRange("bytes " + first + "-" + last + "/" + size)
  {
    var s := "bytes " + first + "-" + last + "/" + size;
    var a := 6 + |first|;
    var b := a + 1 + |last|;
    assert s[..6] == "bytes ";
    assert s[6..a] == first && s[a] == '-';
    assert s[a + 1..b] == last && s[b] == '/';
    assert s[b + 1..] == size;
    DigitsEndAt(s, 6, a);
    DigitsEndAt(s, a + 1, b);
  }

  /** The scanner accepts exactly the values of the form `bytes <first>-<last>/<size>`
      that the pattern `^bytes \d+-\d+\/(\d+|\*)$` describes. */
  lemma ContentRangeRecognized(s: string)
    ensures MatchesContentRange(s) <==> ContentRangeShape(s)
  {
    if MatchesContentRange(s) {
      MatchedHasShape(s);
    }
    if ContentRangeShape(s) {
      var first, last, size :|
        IsDigits(first) && IsDigits(last) && (IsDigits(size) || size == "*")
        && s == "bytes " + first + "-" + last + "/" + size;
      ShapeIsMatched(first, last, size);
    }
  }
}
