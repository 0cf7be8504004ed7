/**
 * api-zerops.js: the redirecting server. It resolves `?v=<id>` through an
 * optional own Piped instance followed by fifteen public ones and answers
 * with a redirect to the audio URL.
 */
module ZeropsServer {
  import opened Wrappers
  import opened Text
  import opened Piped
  import opened Failover
  import opened Urls
  import opened Http

  const FALLBACK_INSTANCES: seq<string> := [
    "pipedapi.kavin.rocks",
    "pipedapi.leptons.xyz",
    "pipedapi.nosebs.ru",
    "pipedapi-libre.kavin.rocks",
    "piped-api.privacy.com.de",
    "pipedapi.adminforge.de",
    "api.piped.yt",
    "pipedapi.drgns.space",
    "pipedapi.owo.si",
    "pipedapi.ducks.party",
    "piped-api.codespace.cz",
    "pipedapi.reallyaweso.me",
    "api.piped.private.coffee",
    "pipedapi.darkness.services",
    "pipedapi.orangenet.cc"
  ]

  const NOT_FOUND_TEXT := "Video not found or no audio available"

  /** `PIPED_INSTANCES`: the `PIPED_API` setting, when it is truthy, ahead of the fallbacks. */
  function Instances(ownPiped: Option<string>): (r: seq<string>)
    ensures ownPiped.Some? && Truthy(ownPiped.value) ==> r == [ownPiped.value] + FALLBACK_INSTANCES
    ensures ownPiped.None? || !Truthy(ownPiped.value) ==> r == FALLBACK_INSTANCES
    ensures |r| == 15 || |r| == 16
  {
    (if ownPiped.Some? && Truthy(ownPiped.value) then [ownPiped.value] else []) + FALLBACK_INSTANCES
  }

  /** The metadata URL: HTTPS is always put in front of the instance, so the URL has a scheme. */
  function ApiUrl(instance: string, videoId: string): (u: string)
    ensures StartsWith(u, "https://" + instance) && HasScheme(u)
    ensures |u| == 8 + |instance| + 9 + |videoId| && u[|u| - 9 - |videoId|..] == "/streams/" + videoId
  {
    var u := "https://" + instance + ("/streams/" + videoId);
    assert u[..8 + |instance|] == "https://" + instance;
    HttpSchemes();
    SchemeNameThenColon("https", "//" + instance + "/streams/" + videoId);
    assert u == "https" + ":" + ("//" + instance + "/streams/" + videoId);
    assert u[..8] == "https://";
    u
  }

  /** An instance configured with its scheme gets a second one in front of it. */
  lemma ApiUrlDoublesScheme(instance: string, videoId: string)
    requires StartsWith(instance, "https://")
    ensures StartsWith(ApiUrl(instance, videoId), "https://https://")
  {
    assert ApiUrl(instance, videoId)[..16] == "https://" + instance[..8];
  }

  /**
   * What one instance contributes: the best candidate's URL made absolute
   * over HTTPS, or None when the instance counts as failed, including when
   * that candidate has no url (`url.startsWith` throws and is caught). An
   * instance that never answers is cut off by the ten-second timeout and
   * fails like any other.
   */
  function Outcome(a: Attempt): (r: Option<string>)
    ensures r.Some? <==> HasStreams(a) && Best(a.body.value.audioStreams.value).url.Some?
    ensures r.Some? ==>
      var formats := a.body.value.audioStreams.value;
      var best := formats[FirstMaxIndex(formats)];
      r.value == AbsoluteUrl("https", best.url.value) && !StartsWith(r.value, "://")
  {
    if HasStreams(a) then
      var best := Best(a.body.value.audioStreams.value);
      if best.url.Some? then
        var url := AbsoluteUrl("https", best.url.value);
        assert !StartsWith(url, "://") by {
          if StartsWith(best.url.value, "://") {
            AbsoluteUrlIsAbsolute("https", best.url.value);
          }
        }
        Some(url)
      else None
    else None
  }

  /** The `k`-th request, made to `instance`: `fetch` answers it unless Node refuses its URL. */
  function Attempted(videoId: string, fetch: (nat, string) -> Attempt, k: nat, instance: string): Attempt {
    HttpGet(ApiUrl(instance, videoId), fetch(k, ApiUrl(instance, videoId)))
  }

  function Probe(videoId: string, fetch: (nat, string) -> Attempt): ((nat, string)) -> Option<string> {
    (p: (nat, string)) => Outcome(Attempted(videoId, fetch, p.0, p.1))
  }

  function Resolve(instances: seq<string>, videoId: string, fetch: (nat, string) -> Attempt): Option<string> {
    match FirstSuccess(Numbered(instances), Probe(videoId, fetch))
    case None => None
    case Some((_, url)) => Some(url)
  }

  /**
   * Three instances: the first answers 500, the second has no streams, the
   * third offers 96 and 160 kbit/s; the 160 kbit/s URL of the third is chosen.
   */
  lemma ThirdInstanceWins(videoId: string)
    ensures
      var low := Candidate(Some("https://c/low"), Some(96000), None);
      var high := Candidate(Some("https://c/high"), Some(160000), None);
      var fetch := (k: nat, u: string) =>
        if k == 0 then Got(500, None)
        else if k == 1 then Got(200, Some(Info("", Some([]), None, None, None)))
        else Got(200, Some(Info("", Some([low, high]), None, None, None)));
      FirstSuccess(Numbered(["a", "b", "c"]), Probe(videoId, fetch)) == Some((2, "https://c/high"))
  {
    var low := Candidate(Some("https://c/low"), Some(96000), None);
    var high := Candidate(Some("https://c/high"), Some(160000), None);
    var fetch := (k: nat, u: string) =>
      if k == 0 then Got(500, None)
      else if k == 1 then Got(200, Some(Info("", Some([]), None, None, None)))
      else Got(200, Some(Info("", Some([low, high]), None, None, None)));
    var probe := Probe(videoId, fetch);
    var items := Numbered(["a", "b", "c"]);
    assert FirstMaxIndex([low, high]) == 1 by {
      assert [low, high][..1] == [low];
    }
    assert !StartsWith("https://c/high", "://") by {
      assert "https://c/high"[..3][0] == 'h';
    }
    assert probe(items[0]) == Outcome(Got(500, None)) == None;
    var emptyInfo := Info("", Some([]), None, None, None);
    assert probe(items[1]) == Outcome(Got(200, Some(emptyInfo))) == None;
    var info := Info("", Some([low, high]), None, None, None);
    assert Best([low, high]) == high;
    assert Outcome(Got(200, Some(info))) == Some(AbsoluteUrl("https", "https://c/high"));
    assert probe(items[2]) == Some("https://c/high");
    WinnerAt(items, probe, 2);
  }

  /**
   * `PIPED_API` set to a fallback host puts that host in the list twice, and
   * both entries are asked: when the first request times out and the second
   * answers, the second one's URL is used.
   */
  lemma RepeatedInstanceAskedAgain(videoId: string)
    ensures
      var instances := Instances(Some(FALLBACK_INSTANCES[0]));
      var only := Candidate(Some("https://a/x"), None, None);
      var fetch := (k: nat, u: string) =>
        if k == 0 then Hung else Got(200, Some(Info("", Some([only]), None, None, None)));
      instances[0] == instances[1] &&
      FirstSuccess(Numbered(instances), Probe(videoId, fetch)) == Some((1, "https://a/x"))
  {
    var instances := Instances(Some(FALLBACK_INSTANCES[0]));
    var only := Candidate(Some("https://a/x"), None, None);
    var fetch := (k: nat, u: string) =>
      if k == 0 then Hung else Got(200, Some(Info("", Some([only]), None, None, None)));
    var probe := Probe(videoId, fetch);
    var items := Numbered(instances);
    assert instances[0] == instances[1] == FALLBACK_INSTANCES[0];
    assert probe(items[0]) == Outcome(Hung) == None;
    assert !StartsWith("https://a/x", "://") by {
      assert "https://a/x"[..3][0] == 'h';
    }
    assert FirstMaxIndex([only]) == 0;
    var info := Info("", Some([only]), None, None, None);
    assert Outcome(Got(200, Some(info))) == Some(AbsoluteUrl("https", "https://a/x"));
    assert probe(items[1]) == Some("https://a/x");
    WinnerAt(items, probe, 1);
  }

  /**
   * When the first `i` instances fail, the search comes to the outcome of
   * instance `i`, if that one does not fail, and to None when there is no
   * instance `i`.
   */
  lemma ResolveAfterFailures(instances: seq<string>, videoId: string, fetch: (nat, string) -> Attempt, i: nat)
    requires i <= |instances|
    requires forall k :: 0 <= k < i ==> Outcome(Attempted(videoId, fetch, k, instances[k])).None?
    ensures i == |instances| ==> Resolve(instances, videoId, fetch).None?
    ensures i < |instances| && Outcome(Attempted(videoId, fetch, i, instances[i])).Some? ==>
      Resolve(instances, videoId, fetch) == Outcome(Attempted(videoId, fetch, i, instances[i]))
  {
    var probe := Probe(videoId, fetch);
    var items := Numbered(instances);
    assert forall k :: 0 <= k < i ==> probe(items[k]) == Outcome(Attempted(videoId, fetch, k, instances[k]));
    if i < |instances| && Outcome(Attempted(videoId, fetch, i, instances[i])).Some? {
      assert probe(items[i]) == Outcome(Attempted(videoId, fetch, i, instances[i]));
      WinnerAt(items, probe, i);
    }
  }

  /**
   * `getAudioUrl`: tries each instance in order, every failure moving on to
   * the next, and returns the best audio URL of the first that succeeds.
   * `fetch(k, url)` is the answer to the `k`-th request, made for `url`, so
   * an instance listed twice may be answered differently each time.
   */
  method GetAudioUrl(instances: seq<string>, videoId: string, fetch: (nat, string) -> Attempt)
    returns (r: Option<string>, tried: nat)
    ensures tried <= |instances|
    ensures r == Resolve(instances, videoId, fetch)
    ensures r.None? ==> tried == |instances|
    ensures forall k :: 0 <= k < tried && (r.None? || k < tried - 1) ==>
      Outcome(Attempted(videoId, fetch, k, instances[k])).None?
    ensures r.Some? ==> 0 < tried && r == Outcome(Attempted(videoId, fetch, tried - 1, instances[tried - 1]))
  {
    r, tried := None, 0;
    while tried < |instances|
      invariant tried <= |instances|
      invariant forall k :: 0 <= k < tried ==> Outcome(Attempted(videoId, fetch, k, instances[k])).None?
    {
      var instance := instances[tried];
      var apiUrl := ApiUrl(instance, videoId);
      var response := HttpGet(apiUrl, fetch(tried, apiUrl));
      assert response == Attempted(videoId, fetch, tried, instance);
      tried := tried + 1;
      // A silent instance is cut off by the timeout, which rejects like an error.
      if response.Threw? || response.Hung? || response.status != 200 || response.body.None? {
        continue;
      }
      var info := response.body.value;
      if info.error != "" {
        continue;
      }
      if info.audioStreams.None? || |info.audioStreams.value| == 0 {
        continue;
      }
      var streams := info.audioStreams.value;
      var best := SortedHead(streams);
      if best.url.None? {
        // `url.startsWith` throws on an undefined url; the catch moves on.
        continue;
      }
      var url := best.url.value;
      if StartsWith(url, "://") {
        url := "https" + url;
      }
      ResolveAfterFailures(instances, videoId, fetch, tried - 1);
      r := Some(url);
      return;
    }
    ResolveAfterFailures(instances, videoId, fetch, tried);
  }

  /**
   * The request handler: every response allows any origin; `/health` answers
   * OK, a missing or empty `v` the usage page, an unresolved video or an
   * empty URL 404 and a resolved one a redirect to its audio URL. Only
   * `/health` looks at the path. A URL that is no valid header value makes
   * `writeHead` throw (it goes through `setHeader`, since a header is already
   * set), so the handler rejects with nothing written.
   */
  method HandleRequest(pathname: string, v: Option<string>, ownPiped: Option<string>, fetch: (nat, string) -> Attempt)
    returns (resp: Response)
    ensures resp.Response? || resp.Unhandled?
    ensures resp.Response? ==>
      "Access-Control-Allow-Origin" in resp.headers && resp.headers["Access-Control-Allow-Origin"] == "*"
    ensures pathname == "/health" ==>
      resp == Response(200, map["Access-Control-Allow-Origin" := "*", "Content-Type" := "text/plain"], Text("OK"))
    ensures pathname != "/health" && (v.None? || !Truthy(v.value)) ==>
      resp == Response(200, map["Access-Control-Allow-Origin" := "*", "Content-Type" := "text/html"],
                       UsagePage(|Instances(ownPiped)|))
    ensures pathname != "/health" && v.Some? && Truthy(v.value) ==>
      var found := Resolve(Instances(ownPiped), v.value, fetch);
      if found.Some? && Truthy(found.value) then
        if ValidHeaderValue(found.value) then
          resp == Response(302, map["Access-Control-Allow-Origin" := "*", "Location" := found.value], NoBody)
        else resp == Unhandled
      else
        resp == Response(404, map["Access-Control-Allow-Origin" := "*", "Content-Type" := "text/plain"],
                         Text(NOT_FOUND_TEXT))
  {
    var headers := map["Access-Control-Allow-Origin" := "*"];
    if pathname == "/health" {
      resp := Response(200, headers["Content-Type" := "text/plain"], Text("OK"));
      return;
    }
    if v.None? || !Truthy(v.value) {
      resp := Response(200, headers["Content-Type" := "text/html"], UsagePage(|Instances(ownPiped)|));
      return;
    }
    var url, _ := GetAudioUrl(Instances(ownPiped), v.value, fetch);
    if url.None? || !Truthy(url.value) {
      resp := Response(404, headers["Content-Type" := "text/plain"], Text(NOT_FOUND_TEXT));
      return;
    }
    if !ValidHeaderValue(url.value) {
      resp := Unhandled;
      return;
    }
    resp := Response(302, headers["Location" := url.value], NoBody);
  }
}
