/**
 * api.js: the first, single-request server. It asks one metadata URL, built
 * by interpolating the whole instance array, and redirects to the best audio
 * URL. Nothing it does is guarded by a catch.
 */
module ApiServer {
  import opened Wrappers
  import opened Text
  import opened Piped
  import opened Urls
  import opened Http

  const PIPED_API: seq<string> := ["piped.local", "pipedapi.local", "pipedproxy.local"]
  const USAGE := "Usage: http://localhost:3002/watch?v=VIDEO_ID"

  /**
   * `${PIPED_API}/streams/${videoId}`: the array interpolates as its
   * elements joined by commas, so the URL opens `piped.local,` and has no
   * scheme.
   */
  function RequestUrl(videoId: string): (u: string)
    ensures StartsWith(u, PIPED_API[0] + ",")
    ensures !HasScheme(u)
  {
    var tail := PIPED_API[1..];
    assert tail[1..] == PIPED_API[2..];
    var u := Join(PIPED_API, ",") + "/streams/" + videoId;
    var rest := Join(tail, ",") + "/streams/" + videoId;
    assert u == PIPED_API[0] + "," + rest;
    assert u[1..] == "iped.local" + [','] + rest;
    SchemeCharsThenOther("iped.local", ',', rest);
    u
  }

  /** The one request names all three instances at once and carries no scheme. */
  lemma RequestUrlJoinsInstances(videoId: string)
    ensures RequestUrl(videoId) ==
      PIPED_API[0] + "," + PIPED_API[1] + "," + PIPED_API[2] + "/streams/" + videoId
    ensures !StartsWith(RequestUrl(videoId), "http")
  {
    var tail := PIPED_API[1..];
    assert tail[1..] == PIPED_API[2..];
    assert Join(tail, ",") == PIPED_API[1] + "," + PIPED_API[2];
    assert RequestUrl(videoId)[0] == PIPED_API[0][0] == 'p';
  }

  /**
   * How `getAudioUrl`'s promise settles: with a URL, with `null`, rejected,
   * or never (its request has no timeout).
   */
  datatype Settled = Resolved(url: string) | Null | Rejected | Pending

  /**
   * How `getAudioUrl` settles for the answer its request got. It rejects
   * when the request failed, the body is unparsable or `null`, or the best
   * candidate has no url; it gives `null` for a bad status or no streams;
   * the `error` field is never looked at.
   */
  function Lookup(a: Attempt): (r: Settled)
    ensures r.Pending? <==> a.Hung?
    ensures r.Rejected? <==>
      a.Threw? ||
      (a.Got? && a.status == 200 &&
       (a.body.None? ||
        (a.body.value.audioStreams.GetOr([]) != [] && Best(a.body.value.audioStreams.value).url.None?)))
    ensures r.Null? <==>
      a.Got? && (a.status != 200 || (a.body.Some? && a.body.value.audioStreams.GetOr([]) == []))
    ensures r.Resolved? ==>
      a.Got? && a.status == 200 && a.body.Some? && a.body.value.audioStreams.GetOr([]) != [] &&
      var best := Best(a.body.value.audioStreams.value);
      best.url.Some? && r.url == AbsoluteUrl("http", best.url.value) && !StartsWith(r.url, "://")
  {
    if a.Threw? then Rejected
    else if a.Hung? then Pending
    else if a.status != 200 then Null
    else if a.body.None? then Rejected
    else if a.body.value.audioStreams.None? || |a.body.value.audioStreams.value| == 0 then Null
    else
      var best := Best(a.body.value.audioStreams.value);
      if best.url.None? then Rejected
      else
        HttpSchemes();
        if StartsWith(best.url.value, "://") then
          AbsoluteUrlIsAbsolute("http", best.url.value);
          Resolved(AbsoluteUrl("http", best.url.value))
        else Resolved(AbsoluteUrl("http", best.url.value))
  }

  /** Every lookup rejects: Node refuses the scheme-less request URL before anything is sent. */
  lemma EveryLookupRejected(videoId: string, answer: Attempt)
    ensures Lookup(HttpGet(RequestUrl(videoId), answer)) == Rejected
  {
  }

  /** The `error` field makes no difference to the outcome. */
  lemma ErrorFieldIgnored(status: int, info: Info, error: string)
    ensures Lookup(Got(status, Some(info))) == Lookup(Got(status, Some(info.(error := error))))
  {
  }

  /**
   * `getAudioUrl`: one request, no failover, then the checks of `Settle`.
   * `fetch` answers a request for a URL that Node accepts; this one it
   * refuses, so the lookup always rejects.
   */
  method GetAudioUrl(videoId: string, fetch: string -> Attempt) returns (r: Settled)
    ensures r == Lookup(HttpGet(RequestUrl(videoId), fetch(RequestUrl(videoId))))
    ensures r == Rejected
  {
    var requestUrl := RequestUrl(videoId);
    var response := HttpGet(requestUrl, fetch(requestUrl));
    r := Settle(response);
  }

  /** What `getAudioUrl` does with the answer to its request. */
  method Settle(response: Attempt) returns (r: Settled)
    ensures r == Lookup(response)
  {
    if response.Threw? {
      return Rejected;
    }
    if response.Hung? {
      // `await httpGet(...)` never resumes.
      return Pending;
    }
    if response.status != 200 {
      return Null;
    }
    if response.body.None? {
      // `JSON.parse` threw, or `null.audioStreams` does.
      return Rejected;
    }
    var info := response.body.value;
    if info.audioStreams.None? || |info.audioStreams.value| == 0 {
      return Null;
    }
    var streams := info.audioStreams.value;
    var best := SortedHead(streams);
    if best.url.None? {
      // `url.startsWith` throws on an undefined url.
      return Rejected;
    }
    var url := best.url.value;
    if StartsWith(url, "://") {
      url := "http" + url;
    }
    return Resolved(url);
  }

  const NOT_FOUND := Response(404, map["Content-Type" := "text/plain"], Text("Not found"))

  /**
   * How the handler answers a settled lookup: a rejection escapes the async
   * handler and nothing is written, a lookup that never settles is never
   * answered, a falsy URL gets 404 and any other a redirect, unless Node
   * refuses it as a header value and `writeHead` throws.
   */
  function Answer(r: Settled): (resp: Response)
    ensures resp.Unhandled? <==> r.Rejected? || (r.Resolved? && Truthy(r.url) && !ValidHeaderValue(r.url))
    ensures r.Pending? <==> resp.Stalled?
    ensures r.Resolved? && Truthy(r.url) && ValidHeaderValue(r.url) <==> resp.Response? && resp.status == 302
    ensures resp.Response? && resp.status == 302 ==> resp == Response(302, map["Location" := r.url], NoBody)
    ensures r.Null? || (r.Resolved? && !Truthy(r.url)) ==> resp == NOT_FOUND
  {
    match r
    case Rejected => Unhandled
    case Pending => Stalled
    case Null => NOT_FOUND
    case Resolved(url) =>
      if !Truthy(url) then NOT_FOUND
      else if ValidHeaderValue(url) then Response(302, map["Location" := url], NoBody)
      else Unhandled
  }

  /** A line break in the URL never reaches the client as a second header: the handler throws instead. */
  lemma LineBreakNotRedirected(before: string, after: string)
    ensures Answer(Resolved(before + "\n" + after)) == Unhandled
  {
    var u := before + "\n" + after;
    assert u[|before|] == '\n';
  }

  /**
   * The request handler: a missing or empty `v` gets the usage text; any
   * other request is looked up and answered by `Answer`, which, since every
   * lookup rejects, leaves it unanswered.
   */
  method HandleRequest(v: Option<string>, fetch: string -> Attempt) returns (resp: Response)
    ensures v.None? || !Truthy(v.value) ==>
      resp == Response(200, map["Content-Type" := "text/plain"], Text(USAGE))
    ensures v.Some? && Truthy(v.value) ==>
      resp == Answer(Lookup(HttpGet(RequestUrl(v.value), fetch(RequestUrl(v.value)))))
    ensures v.Some? && Truthy(v.value) ==> resp == Unhandled
  {
    if v.None? || !Truthy(v.value) {
      resp := Response(200, map["Content-Type" := "text/plain"], Text(USAGE));
      return;
    }
    var url := GetAudioUrl(v.value, fetch);
    resp := Answer(url);
  }
}
