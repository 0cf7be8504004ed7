/** The responses the three servers write. */
module Http {
  import opened Piped

  datatype Body =
    | NoBody
    | Text(text: string)
    | PlayerPage                     // the embedded HTML player of index.js
    | UsagePage(instanceCount: nat)  // the HTML usage page of api-zerops.js
    | InfoError(message: string)     // JSON `{ error }`
    | InfoJson(stream: Stream)       // JSON of the resolved stream
    | RelayedBytes                   // the upstream body, piped through

  /**
   * A written response, or Unhandled when the async handler throws before
   * answering (its promise rejects and no response is ended).
   */
  datatype Response =
    | Response(status: int, headers: map<string, string>, body: Body)
    | Unhandled
    | Stalled  // the handler waits forever on an answer that never comes; nothing is written
    | Crashed  // a callback outside the handler throws; the exception is uncaught and nothing is written

  /** A character Node accepts in a header value: tab, space to `~`, or U+0080 to U+00FF. */
  predicate HeaderValueChar(c: char) {
    c == '\t' || (' ' <= c <= '~') || ('\U{80}' <= c <= '\U{FF}')
  }

  /**
   * A header value that `setHeader` and `writeHead` accept; for any other
   * they throw `ERR_INVALID_CHAR` before anything is written.
   */
  predicate ValidHeaderValue(v: string) {
    forall i :: 0 <= i < |v| ==> HeaderValueChar(v[i])
  }
}
