/**
 * index.js: the player server. It resolves a video through three local Piped
 * instances, answers `/info/<id>` with the stream description and relays
 * `/stream/<id>` byte for byte.
 */
module IndexServer {
  import opened Wrappers
  import opened Text
  import opened Piped
  import opened Failover
  import opened Http
  import opened Urls
  import opened Relay

  const PIPED_INSTANCES: seq<string> := ["piped.local", "pipedapi.local", "pipedproxy.local"]
  const PROXY_HOST := "pipedproxy.local"
  const LOCAL_PROXY := "localhost:8082"
  const NOT_RESOLVED := "Nu am putut obține stream-ul audio"
  const HTML_HEADERS := map["Content-Type" := "text/html; charset=utf-8"]
  const INFO_ROUTE := "/info/"
  const STREAM_ROUTE := "/stream/"
  const JSON_HEADERS := map["Content-Type" := "application/json"]

  /**
   * The metadata URL: the instance, behind `https://` unless it starts with
   * `http`, then `/streams/<id>` (the suffix is `ApiUrlShape`). An instance
   * starting with `http` is used as it is, so `httpbin.org` would stay
   * without a scheme; any other gets one.
   */
  function ApiUrl(instance: string, videoId: string): (u: string)
    ensures StartsWith(u, "http")
    ensures StartsWith(instance, "http") ==> StartsWith(u, instance) && |u| == |instance| + 9 + |videoId|
    ensures !StartsWith(instance, "http") ==>
      StartsWith(u, "https://" + instance) && |u| == 8 + |instance| + 9 + |videoId| && HasScheme(u)
  {
    var base := if StartsWith(instance, "http") then instance else "https://" + instance;
    var u := base + ("/streams/" + videoId);
    assert u[..|base|] == base;
    if StartsWith(instance, "http") then u
    else
      HttpSchemes();
      SchemeNameThenColon("https", "//" + instance + "/streams/" + videoId);
      assert u == "https" + ":" + ("//" + instance + "/streams/" + videoId);
      assert u[..4] == "http";
      u
  }

  /** Every metadata URL ends in `/streams/<id>`. */
  lemma ApiUrlShape(instance: string, videoId: string)
    ensures var u := ApiUrl(instance, videoId);
      |u| >= 9 + |videoId| && u[|u| - 9 - |videoId|..] == "/streams/" + videoId
  {
    var base := if StartsWith(instance, "http") then instance else "https://" + instance;
    assert ApiUrl(instance, videoId) == base + ("/streams/" + videoId);
  }

  /** The configured instances are bare host names, so each is reached at `https://<host>/streams/<id>`. */
  lemma ConfiguredApiUrls(k: nat, videoId: string)
    requires k < |PIPED_INSTANCES|
    ensures ApiUrl(PIPED_INSTANCES[k], videoId) == "https://" + PIPED_INSTANCES[k] + "/streams/" + videoId
  {
    assert PIPED_INSTANCES[k][0] == 'p';
  }

  /**
   * What `getAudioStreamUrl` comes to: the stream of the first usable answer,
   * or waiting for ever on a request that never answers (`httpGet` sets no
   * timeout).
   */
  datatype Resolution = Found(stream: Stream) | Waiting

  /**
   * What one instance contributes: None when it counts as failed and the
   * loop moves on; waiting when its request never answers; otherwise the
   * stream of the earliest candidate of highest bitrate.
   */
  function Outcome(a: Attempt): (r: Option<Resolution>)
    ensures r.None? <==> !a.Hung? && !HasStreams(a)
    ensures r == Some(Waiting) <==> a.Hung?
    ensures r.Some? && r.value.Found? ==>
      HasStreams(a) &&
      var info := a.body.value;
      var formats := info.audioStreams.value;
      var best := FirstMaxIndex(formats);
      r.value.stream ==
        Stream(formats[best].url, info.title, info.uploader, info.duration, MimeTypeOr(formats[best].mimeType))
  {
    if a.Hung? then Some(Waiting)
    else if HasStreams(a) then
      var info := a.body.value;
      var best := Best(info.audioStreams.value);
      Some(Found(Stream(best.url, info.title, info.uploader, info.duration, MimeTypeOr(best.mimeType))))
    else None
  }

  /** The `k`-th request, made to `instance`: `fetch` answers it unless Node refuses its URL. */
  function Attempted(videoId: string, fetch: (nat, string) -> Attempt, k: nat, instance: string): Attempt {
    HttpGet(ApiUrl(instance, videoId), fetch(k, ApiUrl(instance, videoId)))
  }

  function Probe(videoId: string, fetch: (nat, string) -> Attempt): ((nat, string)) -> Option<Resolution> {
    (p: (nat, string)) => Outcome(Attempted(videoId, fetch, p.0, p.1))
  }

  /** What `getAudioStreamUrl` comes to: the outcome of the first instance that does not fail. */
  function Resolve(instances: seq<string>, videoId: string, fetch: (nat, string) -> Attempt): Option<Resolution> {
    match FirstSuccess(Numbered(instances), Probe(videoId, fetch))
    case None => None
    case Some((_, res)) => Some(res)
  }

  /**
   * When the first `i` instances fail, the search comes to the outcome of
   * instance `i`, if that one does not fail, and to None when there is no
   * instance `i`.
   */
  lemma ResolveAfterFailures(instances: seq<string>, videoId: string, fetch: (nat, string) -> Attempt, i: nat)
    requires i <= |instances|
    requires forall k :: 0 <= k < i ==> Outcome(Attempted(videoId, fetch, k, instances[k])).None?
    ensures i == |instances| ==> Resolve(instances, videoId, fetch).None?
    ensures i < |instances| && Outcome(Attempted(videoId, fetch, i, instances[i])).Some? ==>
      Resolve(instances, videoId, fetch) == Outcome(Attempted(videoId, fetch, i, instances[i]))
  {
    var probe := Probe(videoId, fetch);
    var items := Numbered(instances);
    assert forall k :: 0 <= k < i ==> probe(items[k]) == Outcome(Attempted(videoId, fetch, k, instances[k]));
    if i < |instances| && Outcome(Attempted(videoId, fetch, i, instances[i])).Some? {
      assert probe(items[i]) == Outcome(Attempted(videoId, fetch, i, instances[i]));
      WinnerAt(items, probe, i);
    }
  }

  /**
   * The body of the `try` for one answer: each check that fails moves the
   * loop on (None); a request that never answers keeps it waiting; otherwise
   * the stream of the best candidate after sorting.
   */
  method Inspect(response: Attempt) returns (o: Option<Resolution>)
    ensures o == Outcome(response)
  {
    if response.Hung? {
      // `await httpGet(apiUrl)` never resumes.
      return Some(Waiting);
    }
    if response.Threw? {
      return None;
    }
    if response.status != 200 {
      return None;
    }
    if response.body.None? {
      return None;
    }
    var info := response.body.value;
    if info.error != "" {
      return None;
    }
    var audioFormats := info.audioStreams.GetOr([]);
    if |audioFormats| == 0 {
      return None;
    }
    var best := SortedHead(audioFormats);
    return Some(Found(Stream(best.url, info.title, info.uploader, info.duration, MimeTypeOr(best.mimeType))));
  }

  /**
   * `getAudioStreamUrl`: tries each instance in order; any failure, thrown or
   * not, moves on to the next one, and the first usable answer is returned.
   * `fetch(k, url)` is the answer to the `k`-th request, made for `url`, so
   * two requests for one URL may be answered differently; `tried` counts the
   * instances asked. A request that never answers stops the loop for good.
   */
  method GetAudioStreamUrl(instances: seq<string>, videoId: string, fetch: (nat, string) -> Attempt)
    returns (r: Option<Resolution>, tried: nat)
    ensures tried <= |instances|
    ensures r == Resolve(instances, videoId, fetch)
    ensures r.None? ==> tried == |instances|
    ensures forall k :: 0 <= k < tried && (r.None? || k < tried - 1) ==>
      Outcome(Attempted(videoId, fetch, k, instances[k])).None?
    ensures r.Some? ==> 0 < tried && r == Outcome(Attempted(videoId, fetch, tried - 1, instances[tried - 1]))
  {
    r, tried := None, 0;
    while tried < |instances|
      invariant tried <= |instances|
      invariant forall k :: 0 <= k < tried ==> Outcome(Attempted(videoId, fetch, k, instances[k])).None?
    {
      var instance := instances[tried];
      var apiUrl := ApiUrl(instance, videoId);
      var response := HttpGet(apiUrl, fetch(tried, apiUrl));
      assert response == Attempted(videoId, fetch, tried, instance);
      tried := tried + 1;
      var outcome := Inspect(response);
      if outcome.None? {
        continue;
      }
      ResolveAfterFailures(instances, videoId, fetch, tried - 1);
      r := outcome;
      return;
    }
    ResolveAfterFailures(instances, videoId, fetch, tried);
  }

  /**
   * `info.url` as `/info/` sends it: the proxy host swapped once for the
   * local port, then completed over HTTP. It is never schema-relative.
   */
  function InfoUrl(url: string): (r: string)
    ensures !StartsWith(r, "://")
    ensures StartsWith(ReplaceFirst(url, PROXY_HOST, LOCAL_PROXY), "://") ==> HasScheme(r)
  {
    HttpSchemes();
    AbsoluteUrl("http", ReplaceFirst(url, PROXY_HOST, LOCAL_PROXY))
  }

  /** A URL that already has a scheme and does not name the proxy host is sent unchanged. */
  lemma InfoUrlKeeps(url: string)
    requires forall j :: !OccursAt(url, PROXY_HOST, j)
    requires !StartsWith(url, "://")
    ensures InfoUrl(url) == url
  {
  }

  /** Only the first mention of the proxy host is rewritten; what follows it is kept verbatim. */
  lemma InfoUrlRewritesProxyHost(before: string, after: string)
    requires forall j :: 0 <= j < |before| ==> !OccursAt(before + PROXY_HOST, PROXY_HOST, j)
    requires !StartsWith(before + LOCAL_PROXY, "://")
    ensures InfoUrl(before + PROXY_HOST + after) == before + LOCAL_PROXY + after
  {
    var replaced := before + LOCAL_PROXY + after;
    ReplaceFirstAfter(before, PROXY_HOST, LOCAL_PROXY, after);
    assert !StartsWith(replaced, "://") by {
      assert replaced[..3] == (before + LOCAL_PROXY)[..3];
    }
    AbsoluteUrlKeeps("http", replaced);
  }

  /** A schema-relative URL that does not name the proxy host comes out over plain HTTP. */
  lemma InfoUrlOfRelative(rest: string)
    requires forall j :: !OccursAt("://" + rest, PROXY_HOST, j)
    ensures InfoUrl("://" + rest) == "http://" + rest
  {
    assert ("://" + rest)[..3] == "://";
  }

  /** The usual local answer, `://pipedproxy.local/…`, is sent as `http://localhost:8082/…`. */
  lemma InfoUrlOfLocalProxy(rest: string)
    ensures InfoUrl("://" + PROXY_HOST + rest) == "http://" + LOCAL_PROXY + rest
  {
    var x := LOCAL_PROXY + rest;
    assert ReplaceFirst("://" + PROXY_HOST + rest, PROXY_HOST, LOCAL_PROXY) == "://" + x by {
      LocalProxyAfterSeparator(rest);
      ConcatAssoc("://", LOCAL_PROXY, rest);
    }
    assert InfoUrl("://" + PROXY_HOST + rest) == AbsoluteUrl("http", "://" + x) by {
      InfoUrlSteps("://" + PROXY_HOST + rest);
    }
    assert AbsoluteUrl("http", "://" + x) == "http" + "://" + x by {
      AbsoluteUrlOfRelative("http", x);
    }
    assert "http" + "://" + x == "http://" + LOCAL_PROXY + rest by {
      ConcatAssoc("http://", LOCAL_PROXY, rest);
    }
  }

  /**
   * A schema-relative url naming the proxy host further on gets both the
   * local host and the scheme: `://a/pipedproxy.local/x` is sent as
   * `http://a/localhost:8082/x`.
   */
  lemma InfoUrlOfRelativeWithProxy(mid: string, rest: string)
    requires forall j :: 0 <= j < 3 + |mid| ==> !OccursAt("://" + mid + PROXY_HOST, PROXY_HOST, j)
    ensures InfoUrl("://" + mid + PROXY_HOST + rest) == "http://" + mid + LOCAL_PROXY + rest
  {
    var x := mid + LOCAL_PROXY + rest;
    var url := "://" + mid + PROXY_HOST + rest;
    assert ReplaceFirst(url, PROXY_HOST, LOCAL_PROXY) == "://" + x by {
      ProxyHostAfterRelative(mid, rest);
    }
    assert InfoUrl(url) == AbsoluteUrl("http", "://" + x) by {
      InfoUrlSteps(url);
    }
    assert AbsoluteUrl("http", "://" + x) == "http" + "://" + x by {
      AbsoluteUrlOfRelative("http", x);
    }
    assert "http" + "://" + x == "http://" + mid + LOCAL_PROXY + rest by {
      ConcatAssoc("http://", mid, LOCAL_PROXY);
      ConcatAssoc("http://" + mid, LOCAL_PROXY, rest);
      ConcatAssoc("http://", mid, LOCAL_PROXY + rest);
    }
  }

  lemma ProxyHostAfterRelative(mid: string, rest: string)
    requires forall j :: 0 <= j < 3 + |mid| ==> !OccursAt("://" + mid + PROXY_HOST, PROXY_HOST, j)
    ensures ReplaceFirst("://" + mid + PROXY_HOST + rest, PROXY_HOST, LOCAL_PROXY) == "://" + (mid + LOCAL_PROXY + rest)
  {
    ReplaceFirstAfter("://" + mid, PROXY_HOST, LOCAL_PROXY, rest);
    ConcatAssoc("://" + mid, LOCAL_PROXY, rest);
    ConcatAssoc("://", mid, LOCAL_PROXY + rest);
    ConcatAssoc(mid, LOCAL_PROXY, rest);
  }

  lemma InfoUrlSteps(url: string)
    ensures InfoUrl(url) == AbsoluteUrl("http", ReplaceFirst(url, PROXY_HOST, LOCAL_PROXY))
  {
  }

  lemma LocalProxyAfterSeparator(rest: string)
    ensures ReplaceFirst("://" + PROXY_HOST + rest, PROXY_HOST, LOCAL_PROXY) == "://" + LOCAL_PROXY + rest
  {
    var head := "://" + PROXY_HOST;
    forall j | 0 <= j < 3 ensures !OccursAt(head, PROXY_HOST, j) {
      assert head[j] != PROXY_HOST[0];
    }
    ReplaceFirstAfter("://", PROXY_HOST, LOCAL_PROXY, rest);
  }

  /**
   * A schema-relative stream URL is completed for `/info/` but not for
   * `/stream/`: there it still starts `://` after the proxy host is swapped
   * (the host cannot begin before position 3), so `new URL` refuses it and
   * the request is never answered.
   */
  lemma RelativeUrlNotRelayed(rest: string, inbound: map<string, string>, upstream: RelayRequest -> Upstream)
    ensures HasScheme(InfoUrl("://" + rest))
    ensures ProxyStream(ReplaceFirst("://" + rest, PROXY_HOST, LOCAL_PROXY), inbound, upstream) == Unhandled
  {
    var s := "://" + rest;
    match IndexOf(s, PROXY_HOST)
    case None =>
      assert s[..3] == "://";
    case Some(k) =>
      assert s[k] == PROXY_HOST[0];
      assert k >= 3;
      assert (s[..k] + LOCAL_PROXY + s[k + |PROXY_HOST|..])[..3] == s[..3];
  }

  /** A route prefix `/<word>/` whose word has no `/`. */
  predicate RoutePrefix(prefix: string) {
    |prefix| >= 2 && prefix[0] == '/' && prefix[|prefix| - 1] == '/' && '/' !in prefix[1..|prefix| - 1]
  }

  /** `url.pathname.split('/')[2]` for a path under a route prefix: the `/`-free piece after the prefix. */
  function SegmentAfter(prefix: string, pathname: string): (id: string)
    requires RoutePrefix(prefix) && StartsWith(pathname, prefix)
    ensures '/' !in id
    ensures StartsWith(pathname, prefix + id)
    ensures |pathname| == |prefix| + |id| || pathname[|prefix| + |id|] == '/'
  {
    var word := prefix[1..|prefix| - 1];
    var rest := pathname[|prefix|..];
    assert prefix == "/" + word + "/";
    assert pathname == "/" + word + "/" + rest;
    SplitAfterWord(word, rest);
    var parts := Split(pathname, '/');
    assert parts[2] == Split(rest, '/')[0];
    assert prefix + parts[2] == pathname[..|prefix| + |parts[2]|];
    parts[2]
  }

  /**
   * The request handler: `/` serves the player, `/info/<id>` the resolved
   * stream as JSON (status 200 even when nothing resolves), `/stream/<id>`
   * relays the audio (404 when nothing resolves), anything else is 404. A
   * resolution that waits on a silent instance leaves the request unanswered.
   */
  method HandleRequest(
    pathname: string, inbound: map<string, string>,
    fetch: (nat, string) -> Attempt, upstream: RelayRequest -> Upstream)
    returns (resp: Response)
    ensures pathname == "/" ==> resp == Response(200, HTML_HEADERS, PlayerPage)
    ensures StartsWith(pathname, INFO_ROUTE) ==>
      match Resolve(PIPED_INSTANCES, SegmentAfter(INFO_ROUTE, pathname), fetch)
      case None => resp == Response(200, JSON_HEADERS, InfoError(NOT_RESOLVED))
      case Some(Waiting) => resp == Stalled
      case Some(Found(stream)) =>
        if stream.url.None? then resp == Unhandled
        else resp == Response(200, JSON_HEADERS, InfoJson(stream.(url := Some(InfoUrl(stream.url.value)))))
    ensures StartsWith(pathname, STREAM_ROUTE) ==>
      match Resolve(PIPED_INSTANCES, SegmentAfter(STREAM_ROUTE, pathname), fetch)
      case None => resp == Response(404, map[], Text("Not found"))
      case Some(Waiting) => resp == Stalled
      case Some(Found(stream)) =>
        if stream.url.None? then resp == Unhandled
        else resp == ProxyStream(ReplaceFirst(stream.url.value, PROXY_HOST, LOCAL_PROXY), inbound, upstream)
    ensures pathname != "/" && !StartsWith(pathname, INFO_ROUTE) && !StartsWith(pathname, STREAM_ROUTE) ==>
      resp == Response(404, map[], Text("Not found"))
  {
    if pathname == "/" {
      resp := Response(200, HTML_HEADERS, PlayerPage);
      return;
    }
    if StartsWith(pathname, INFO_ROUTE) {
      assert pathname[1] == 'i';
      assert !StartsWith(pathname, STREAM_ROUTE);
      var videoId := SegmentAfter(INFO_ROUTE, pathname);
      var info, _ := GetAudioStreamUrl(PIPED_INSTANCES, videoId, fetch);
      if info.None? {
        resp := Response(200, JSON_HEADERS, InfoError(NOT_RESOLVED));
        return;
      }
      if info.value.Waiting? {
        resp := Stalled;
        return;
      }
      var stream := info.value.stream;
      if stream.url.None? {
        // `info.url.replace` throws on an undefined url.
        resp := Unhandled;
        return;
      }
      resp := Response(200, JSON_HEADERS, InfoJson(stream.(url := Some(InfoUrl(stream.url.value)))));
      return;
    }
    if StartsWith(pathname, STREAM_ROUTE) {
      var videoId := SegmentAfter(STREAM_ROUTE, pathname);
      var info, _ := GetAudioStreamUrl(PIPED_INSTANCES, videoId, fetch);
      if info.None? {
        resp := Response(404, map[], Text("Not found"));
        return;
      }
      if info.value.Waiting? {
        resp := Stalled;
        return;
      }
      var stream := info.value.stream;
      if stream.url.None? {
        resp := Unhandled;
        return;
      }
      var url := ReplaceFirst(stream.url.value, PROXY_HOST, LOCAL_PROXY);
      resp := ProxyStream(url, inbound, upstream);
      return;
    }
    resp := Response(404, map[], Text("Not found"));
  }
}
