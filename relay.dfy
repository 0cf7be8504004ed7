/**
 * `proxyStream` of index.js: the request sent to the resolved audio URL and
 * the response written back to the client. Header maps received from Node
 * have lower-case names.
 */
module Relay {
  import opened Piped
  import opened Http
  import opened Urls

  const USER_AGENT := "Mozilla/5.0"

  const RELAYED_HEADERS: set<string> :=
    {"Content-Type", "Content-Length", "Accept-Ranges", "Access-Control-Allow-Origin", "Content-Range"}

  datatype RelayRequest = RelayRequest(url: string, headers: map<string, string>)

  /**
   * The upstream could not be reached, never answered (the request has no
   * timeout), or answered with a status and headers.
   */
  datatype Upstream = ConnectFailed | Silent | Answered(status: int, headers: map<string, string>)

  /** Headers of the upstream request: always a User-Agent, and the client's Range when it sent one. */
  function UpstreamHeaders(inbound: map<string, string>): (h: map<string, string>)
    ensures h.Keys <= {"User-Agent", "Range"}
    ensures "User-Agent" in h && h["User-Agent"] == USER_AGENT
    ensures "Range" in h <==> "range" in inbound && inbound["range"] != ""
    ensures "Range" in h ==> h["Range"] == inbound["range"]
  {
    var base := map["User-Agent" := USER_AGENT];
    if "range" in inbound && inbound["range"] != "" then base["Range" := inbound["range"]] else base
  }

  function Request(url: string, inbound: map<string, string>): RelayRequest {
    RelayRequest(url, UpstreamHeaders(inbound))
  }

  /**
   * What the relay writes: the upstream status and content headers with
   * `Accept-Ranges` and an open CORS origin, or 500 when the upstream fails;
   * nothing at all while it stays silent. An answer without a length (a
   * chunked one) leaves `Content-Length` undefined, which `writeHead`
   * refuses with `ERR_HTTP_INVALID_HEADER_VALUE`; that throw happens in the
   * `https.get` callback, outside the handler's promise, and is uncaught.
   */
  function RelayResponse(up: Upstream): (resp: Response)
    ensures up.ConnectFailed? ==> resp == Response(500, map[], Text("Stream error"))
    ensures up.Silent? ==> resp == Stalled
    ensures up.Answered? ==> (resp.Response? <==> "content-length" in up.headers)
    ensures up.Answered? && !resp.Response? ==> resp == Crashed
    ensures up.Answered? && resp.Response? ==> resp.status == up.status && resp.body == RelayedBytes
    ensures up.Answered? && resp.Response? ==> resp.headers.Keys <= RELAYED_HEADERS
    ensures up.Answered? && resp.Response? ==> "Content-Type" in resp.headers && resp.headers["Content-Type"] != ""
    ensures up.Answered? && resp.Response? && "content-type" in up.headers && up.headers["content-type"] != "" ==>
      resp.headers["Content-Type"] == up.headers["content-type"]
    ensures up.Answered? && resp.Response? && ("content-type" !in up.headers || up.headers["content-type"] == "") ==>
      resp.headers["Content-Type"] == DEFAULT_MIME_TYPE
    ensures up.Answered? && resp.Response? ==> "Accept-Ranges" in resp.headers && resp.headers["Accept-Ranges"] == "bytes"
    ensures up.Answered? && resp.Response? ==>
      "Access-Control-Allow-Origin" in resp.headers && resp.headers["Access-Control-Allow-Origin"] == "*"
    ensures up.Answered? && resp.Response? ==>
      "Content-Length" in resp.headers && resp.headers["Content-Length"] == up.headers["content-length"]
    ensures up.Answered? && resp.Response? ==>
      ("Content-Range" in resp.headers <==> "content-range" in up.headers && up.headers["content-range"] != "")
    ensures up.Answered? && resp.Response? && "Content-Range" in resp.headers ==>
      resp.headers["Content-Range"] == up.headers["content-range"]
  {
    match up
    case ConnectFailed => Response(500, map[], Text("Stream error"))
    case Silent => Stalled
    case Answered(status, h) =>
      if "content-length" !in h then Crashed
      else
        var contentType := if "content-type" in h && h["content-type"] != "" then h["content-type"] else DEFAULT_MIME_TYPE;
        var base := map[
          "Content-Type" := contentType,
          "Content-Length" := h["content-length"],
          "Accept-Ranges" := "bytes",
          "Access-Control-Allow-Origin" := "*"];
        var headers :=
          if "content-range" in h && h["content-range"] != "" then base["Content-Range" := h["content-range"]]
          else base;
        Response(status, headers, RelayedBytes)
  }

  /**
   * `proxyStream(audioUrl, req, res)`: `new URL(audioUrl)` throws for a URL
   * without a scheme, and the async handler that called it rejects with
   * nothing written; any other URL is relayed.
   */
  function ProxyStream(url: string, inbound: map<string, string>, upstream: RelayRequest -> Upstream): (resp: Response)
    ensures !HasScheme(url) ==> resp == Unhandled
    ensures HasScheme(url) ==> resp == RelayResponse(upstream(Request(url, inbound)))
    ensures resp.Response? ==> (HasScheme(url) && upstream(Request(url, inbound)).Answered?) || resp.status == 500
  {
    if HasScheme(url) then RelayResponse(upstream(Request(url, inbound))) else Unhandled
  }

  /**
   * A byte-range request goes through: the client's Range reaches the
   * upstream unchanged, and a partial answer with a length comes back with
   * the upstream's status and Content-Range.
   */
  lemma RangeRequestRoundTrip(url: string, inbound: map<string, string>, upstream: RelayRequest -> Upstream)
    requires "range" in inbound && inbound["range"] != ""
    requires upstream(Request(url, inbound)).Answered?
    requires "content-range" in upstream(Request(url, inbound)).headers
    requires upstream(Request(url, inbound)).headers["content-range"] != ""
    ensures Request(url, inbound).headers["Range"] == inbound["range"]
    ensures "content-length" in upstream(Request(url, inbound)).headers ==>
      RelayResponse(upstream(Request(url, inbound))).Response? &&
      RelayResponse(upstream(Request(url, inbound))).status == upstream(Request(url, inbound)).status &&
      RelayResponse(upstream(Request(url, inbound))).headers["Content-Range"] ==
        upstream(Request(url, inbound)).headers["content-range"]
  {
  }
}
