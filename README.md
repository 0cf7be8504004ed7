# youtube-stream, modelled in Dafny

The repository has three near-duplicate Node.js servers. Each one turns a YouTube video id into a playable audio URL by asking Piped metadata instances for `/streams/<id>`. It picks the audio stream with the highest bitrate and makes its URL absolute. Then it either redirects the client to that URL or relays the audio itself.

- `index.js` tries three local instances in order. It answers `/info/<id>` with a JSON description of the stream. It relays `/stream/<id>` with byte-range support.
- `api-zerops.js` tries an optional own instance (`PIPED_API`) and then fifteen public ones. It redirects `?v=<id>` to the audio URL.
- `api.js` is meant to make a single request with no failover and then redirect. As written it never gets that far: its request URL has no scheme, so every lookup fails (see below).

The model replaces the network with oracles:
- `fetch: (nat, string) -> Attempt` answers the metadata request made `k`-th in a run of the instance loop, for its URL. Because requests are numbered, an instance listed twice can get two different answers. `api.js` makes one request and uses `fetch: string -> Attempt`.
- `upstream: RelayRequest -> Upstream` is the audio server's answer to the relay.

An `Attempt` has one of three outcomes:
- It threw: a connection error, or a timeout in `api-zerops.js`.
- It hung: the server never finished answering.
- It came back with a status and a body. The body is `None` when `JSON.parse` threw or produced `null`; in both cases the next property access throws. Any other JSON value behaves like an `Info` whose fields are all absent.

`Urls.HttpGet` puts Node's own check in front of the oracle. `http.get` parses a string URL as `new URL` does. That parser first trims leading and trailing C0 controls and spaces and drops every tab and newline. A URL that then does not open with a scheme makes it throw before anything is sent, so such a request is `Threw` whatever the server would say.

`index.js` and `api.js` set no timeout. There, a hung request leaves the handler waiting for ever and nothing is ever written (`Stalled`). `api-zerops.js` gives up after ten seconds, so there a hung request fails like a thrown one.

Strings are `seq<char>`. A JavaScript falsy string is the empty one. An absent or falsy `error` field is `""`.

Modules:
- `Text`: string helpers (`startsWith`, `indexOf`, first-occurrence `replace`, `split`, `join`).
- `Piped`: the payload datatypes, the bitrate key `bitrate || 0`, the pure "earliest candidate of highest key", and the in-place stable sort on an `array`.
- `Failover`: the generic first-success search.
- `Urls`: the scheme check Node applies to a URL, making a `://…` URL absolute, and `HttpGet`.
- `Http`: responses, and the characters Node accepts in a header value.
- `Relay`: `proxyStream`.
- `IndexServer`, `ZeropsServer`, `ApiServer`: one module per server file.

The loops that try instances, and the sorts, are methods. Each is proved against a specification function whose own properties are proved as lemmas or contracts.

The source sorts with `Array.prototype.sort` and the comparator `(a, b) => (b.bitrate || 0) - (a.bitrate || 0)`. That sort is stable, and a stable sort under a consistent comparator has only one possible result. So `SortByBitrate` uses insertion sort and is proved equal to `SortDesc`. The servers read only element 0 of the sorted array. `SortHeadIsBest` proves that element is `Best`: the earliest-listed candidate of highest key.

`Unhandled` stands for an async handler whose promise rejects before any response is ended. This happens in `index.js` in two cases:
- the chosen candidate has no `url`;
- in `/stream`, the rewritten url has no scheme (for example an empty or `://…` url), so `new URL` in `proxyStream` throws.

In `api.js` it happens on every lookup. The one request URL joins the three instance names with commas and has no scheme, so `http.get` throws for every video id.

In `api-zerops.js` and `api.js` it also happens when the URL to redirect to holds a character Node refuses in a header value: a control character other than tab, or one above U+00FF. `writeHead` then throws `ERR_INVALID_CHAR`.

`Crashed` stands for an exception thrown in a callback outside any handler, which Node does not catch. In `index.js` this happens when the upstream audio answer has no `Content-Length`, for example a chunked one. `proxyStream` then passes `undefined` as that header's value to `writeHead`, which throws `ERR_HTTP_INVALID_HEADER_VALUE` inside the `https.get` callback.

## Model

| member | source | states |
|---|---|---|
| `Failover.Numbered` | index.js:46 | each instance is paired with its position in the list, which is the order in which the loop asks them |
| `Failover.FirstSuccess` | index.js:46-92 | the result is the first instance, in list order, whose attempt succeeds, with that attempt's result; every earlier instance failed; None exactly when every instance failed |
| `Failover.WinnerAt` | index.js:78-84 | an instance that succeeds after only failures is the one the search returns, with its own result |
| `Failover.LaterInstancesIrrelevant` | index.js:78-84 | once an instance succeeds, instances after it are never consulted: appending any instances leaves the outcome unchanged |
| `Failover.FailedPrefixSkipped` | index.js:85-88 | failed instances only move the search on: the outcome is that of the remaining list, shifted by their count |
| `Urls.HasScheme` | index.js:96 | a string Node accepts as an absolute URL is non-empty and never schema-relative (`://…`); blanks in front and breaks inside the scheme are handled by the lemmas below |
| `Urls.BreakInsideScheme` | index.js:96 | a tab or newline inside a scheme name is dropped: `ht\ttp://h/x` still has a scheme |
| `Urls.LeadingBlanksSkipped` | index.js:96 | blanks (C0 controls and spaces) in front of a URL never change whether it has a scheme |
| `Urls.BlanksThenScheme` | index.js:96 | a scheme name and `:` behind any blanks make an absolute URL, so `" https://h/x"` is relayed |
| `Urls.NoSchemeWithoutLetter` | index.js:96 | when the first character other than a blank is not a letter, there is no scheme |
| `Urls.SchemeNameThenColon` | api-zerops.js:76 | a scheme name such as `https` followed by `:` and anything makes a string that opens with a scheme |
| `Urls.HttpGet` | index.js:20 | a request to a URL without a scheme (after trimming) throws before anything is sent; any other request gets the server's answer |
| `Urls.AbsoluteUrl` | api-zerops.js:76 | the scheme is only ever put in front; a URL that has a scheme is kept; a completed `://…` URL opens with a scheme |
| `Urls.AbsoluteUrlOfRelative` | api-zerops.js:76 | `://r` becomes scheme + `://r` |
| `Urls.AbsoluteUrlKeeps` | api.js:32 | any URL not starting with `://` is returned unchanged |
| `Urls.AbsoluteUrlIdempotent` | api-zerops.js:76 | completing a URL twice gives the same as completing it once |
| `Urls.AbsoluteUrlIsAbsolute` | api-zerops.js:76 | a completed schema-relative URL starts with scheme + `://` and is no longer schema-relative |
| `Piped.HasStreams` | index.js:55-73 | an answer is usable exactly when it came back with status 200, a parsed body, a falsy `error` and a non-empty `audioStreams` |
| `Piped.Key` | index.js:75 | the sort key is the candidate's bitrate, or 0 when it has none |
| `Piped.MimeTypeOr` | index.js:83 | the content type is the candidate's own when it has a non-empty one, and `audio/webm` when it is absent or empty; never empty |
| `Piped.FirstMaxIndex` | index.js:75-79 | the chosen index holds a key (`bitrate`, missing counted as 0) at least every other candidate's, and every earlier candidate's key is strictly smaller (ties go to the earliest) |
| `Piped.SortDesc` | index.js:75 | sorting keeps the number of candidates |
| `Piped.SortDescSorted` | index.js:75 | the sorted candidates are in non-increasing key order |
| `Piped.SortDescPermutes` | index.js:75 | the sort only rearranges the candidates (same multiset) |
| `Piped.SortHeadIsBest` | index.js:75-76 | element 0 after the stable descending sort is the earliest candidate of highest key |
| `Piped.SortByBitrate` | api-zerops.js:73 | the in-place sort leaves the array equal to the stable descending sort of its old contents |
| `Piped.SortedHead` | api.js:28-29 | sorting a copy of a non-empty candidate list and reading element 0 yields the earliest candidate of highest key |
| `Text.IndexOf` | index.js:242 | the position found holds the pattern and no earlier position does; none is found only when the pattern occurs nowhere |
| `Text.ReplaceFirst` | index.js:242 | a string without the pattern is unchanged; otherwise exactly the first occurrence is replaced and the rest kept |
| `Text.Split` | index.js:233 | no piece contains the separator; the first piece is the separator-free prefix of the string, ending at a separator or the end |
| `Text.Join` | api.js:22 | joining one part gives that part |
| `Text.JoinPrefix` | api.js:22 | the joined string opens with the first part, followed by the separator when more parts follow |
| `Text.JoinSplit` | index.js:233 | joining the pieces of a split with the separator gives back the string |
| `IndexServer.ApiUrl` | index.js:48-50 | an instance starting with `http` opens the URL as it is; any other opens it behind `https://` and so gets a scheme; in both cases exactly `/streams/<id>` follows (the length, with `ApiUrlShape`'s suffix, fixes the URL) |
| `IndexServer.ApiUrlShape` | index.js:48-50 | every metadata URL ends with `/streams/<id>` |
| `IndexServer.ConfiguredApiUrls` | index.js:6-11 | the three configured instances have no scheme and are reached as `https://<host>/streams/<id>` |
| `IndexServer.Outcome` | index.js:53-84 | an instance fails exactly when its request did not hang and its answer is not usable; a hung request means waiting; otherwise the stream is the earliest highest-bitrate candidate's url (unnormalised), its mimeType or `audio/webm`, title, uploader as author, duration |
| `IndexServer.ResolveAfterFailures` | index.js:46-92 | after failures only, the loop's result is the next instance's outcome when that one does not fail, and null when no instance is left |
| `IndexServer.Inspect` | index.js:53-84 | the checks on one answer come to exactly that instance's outcome: fail, wait, or the best candidate's stream |
| `IndexServer.GetAudioStreamUrl` | index.js:43-93 | tries instances in order and counts them; equals the first-success search over the numbered requests; every instance before the one that settled it failed; null only after every instance was tried; the result is the outcome of the last request made |
| `IndexServer.InfoUrl` | index.js:242-245 | the url sent is never schema-relative, and it opens with a scheme whenever the rewritten url was `://…` |
| `IndexServer.InfoUrlKeeps` | index.js:242-245 | a URL that is not schema-relative and does not contain `pipedproxy.local` is sent unchanged |
| `IndexServer.InfoUrlRewritesProxyHost` | index.js:242-245 | only the first occurrence of `pipedproxy.local` becomes `localhost:8082`; the text before and after it is kept, for any url that does not become schema-relative |
| `IndexServer.InfoUrlOfRelative` | index.js:243-245 | a schema-relative URL `://r` is sent as `http://r` |
| `IndexServer.InfoUrlOfLocalProxy` | index.js:242-245 | `://pipedproxy.local<r>` is sent as `http://localhost:8082<r>` |
| `IndexServer.InfoUrlOfRelativeWithProxy` | index.js:242-245 | a schema-relative url naming `pipedproxy.local` further on gets both rewrites: `://<m>pipedproxy.local<r>` is sent as `http://<m>localhost:8082<r>` |
| `IndexServer.RelativeUrlNotRelayed` | index.js:263-266 | a `://…` url, completed with `http` for `/info`, is relayed uncompleted by `/stream`, where `new URL` throws and the request is left unhandled |
| `IndexServer.SegmentAfter` | index.js:233 | the video id, `pathname.split('/')[2]`, is the `/`-free text right after `/info/` (or `/stream/`), ending at the next `/` or the end of the path |
| `IndexServer.HandleRequest` | index.js:122-272 | `/` serves the player; `/info/<id>` answers 200 JSON either way, with `{error}` when nothing resolves and otherwise with the stream whose url was rewritten and completed; `/stream/<id>` answers 404 when nothing resolves and otherwise proxies the rewritten (not completed) url; a resolved stream without url leaves the request unhandled; a hung instance leaves it unanswered; any other path is 404 |
| `Relay.UpstreamHeaders` | index.js:101-104 | the upstream request always carries `User-Agent: Mozilla/5.0`; it carries `Range` exactly when the client sent a non-empty one, copied verbatim, and nothing else |
| `Relay.RelayResponse` | index.js:107-119 | an upstream answer with a length is relayed: its status; `Content-Type` the upstream's, or `audio/webm` when absent or empty; `Content-Length` the upstream's; `Accept-Ranges: bytes` and `Access-Control-Allow-Origin: *`; `Content-Range` exactly when the upstream sends a non-empty one, same value; no other header. An answer without a length crashes the process; an upstream error gives 500 `Stream error`; an upstream that never answers leaves the client waiting |
| `Relay.ProxyStream` | index.js:95-107 | a url without a scheme (after trimming) makes `new URL` throw and leaves the request unhandled; any other is relayed; a response that is written either mirrors an upstream answer or is the 500 error |
| `Relay.RangeRequestRoundTrip` | index.js:101-114 | a client's byte range reaches the upstream unchanged, and a partial answer with a length comes back with its status and `Content-Range` |
| `ZeropsServer.Instances` | api-zerops.js:7-26 | the fifteen fallback hosts in source order, preceded by `PIPED_API` exactly when it is set and non-empty |
| `ZeropsServer.ApiUrl` | api-zerops.js:51 | the metadata URL is `https://`, the instance, then exactly `/streams/<id>`, and so has a scheme |
| `ZeropsServer.ApiUrlDoublesScheme` | api-zerops.js:51 | the metadata URL always prepends `https://`, so an instance given as `https://…` is requested as `https://https://…` |
| `ZeropsServer.Outcome` | api-zerops.js:56-79 | an instance succeeds exactly when its answer is usable and the best candidate has a url; then the URL is that url completed with `https`, never schema-relative |
| `ZeropsServer.ResolveAfterFailures` | api-zerops.js:49-87 | after failures only, the loop's result is the next instance's outcome when that one does not fail, and null when no instance is left |
| `ZeropsServer.GetAudioUrl` | api-zerops.js:48-88 | tries instances in order and counts them; equals the first-success search over the numbered requests; thrown failures, timeouts, status ≠ 200, a truthy `error`, absent or empty `audioStreams`, and a best candidate without `url` all move on; null only after every instance was tried |
| `ZeropsServer.ThirdInstanceWins` | api-zerops.js:49-79 | with instances answering 500, an empty stream list, and streams of 96000 and 160000 bit/s, the third instance's 160000 bit/s URL is returned |
| `ZeropsServer.RepeatedInstanceAskedAgain` | api-zerops.js:9-11 | `PIPED_API` set to a fallback host lists it twice; when the first request times out, the second request to the same host is made and its answer used |
| `ZeropsServer.HandleRequest` | api-zerops.js:90-128 | every written response carries `Access-Control-Allow-Origin: *`; `/health` answers 200 `OK` before `v` is looked at; a missing or empty `v` gets the 200 usage page; otherwise an unresolved video (or an empty URL) gets 404 `text/plain` with the not-found text, a resolved one a 302 with only `Location` and the CORS header, unless its URL is no valid header value, which leaves the request unhandled; no other path is special |
| `ApiServer.RequestUrl` | api.js:22 | the single request URL starts with `piped.local,` and has no scheme |
| `ApiServer.RequestUrlJoinsInstances` | api.js:22 | the single request URL is the three instances comma-joined, then `/streams/<id>`, with no scheme |
| `ApiServer.Lookup` | api.js:21-35 | a thrown request, an unparsable or null body with status 200, or a best candidate without url reject; status ≠ 200 or absent or empty `audioStreams` give null; a hung request never settles; otherwise the best candidate's url with `://` completed to `http://` |
| `ApiServer.EveryLookupRejected` | api.js:11-22 | whatever the server would answer, the lookup rejects, because its URL has no scheme |
| `ApiServer.ErrorFieldIgnored` | api.js:25-26 | the `error` field never changes the outcome |
| `ApiServer.Settle` | api.js:23-34 | the checks after the request settle exactly as the lookup specifies |
| `ApiServer.GetAudioUrl` | api.js:21-35 | makes the one request and settles as the lookup specifies for its answer, which is always a rejection |
| `ApiServer.Answer` | api.js:49-60 | a rejected lookup, or a URL that is no valid header value, leaves the request unhandled and a pending one unanswered; a 302 is sent exactly for a non-empty valid URL, with only `Location`; null or an empty URL gets 404 `text/plain` `Not found` |
| `ApiServer.LineBreakNotRedirected` | api.js:59 | a URL holding a line break is never sent as `Location`: the handler throws instead |
| `ApiServer.HandleRequest` | api.js:37-61 | a missing or empty `v` gets the plain-text usage; any other request is looked up through the single request, answered as above, and so is left unhandled |

## Left out

- The HTTP transport (`httpGet`, socket I/O, accumulating chunks, the promise plumbing) is not modelled. Each request's outcome is an input.
- Following 301/302 redirects while fetching metadata (index.js) is not modelled. The attempt is the final answer.
- `ZeropsServer.GetAudioUrl`: the ten-second timeout of api-zerops.js is an idle timeout on the socket. The model counts a request that never finishes as failed; a server that keeps sending a byte now and then is not modelled. Elapsed time is not modelled.
- `JSON.parse` is opaque. A body either parsed to an `Info` or it did not. These are not modelled: a non-array `audioStreams`, candidates that are not objects, non-numeric bitrates, and fractional `bitrate` or `duration` values (both are integers here). Their thrown errors fall under the same catch in index.js and api-zerops.js.
- WHATWG `new URL` parsing is not modelled beyond the trimming and the scheme. The path and the `v` query value are inputs.
- `Relay.ProxyStream` and `Urls.HttpGet`: a URL that opens with a scheme counts as accepted. The WHATWG parser still rejects some of those (an empty host, forbidden host characters, an unsupported protocol for `http.get`), and there the model relays or requests where Node would throw.
- `RelayRequest` records the whole URL. The source sends the upstream request over HTTPS to the URL's hostname and path plus query only, so a port such as `:8082` or an `http` scheme is dropped. That is not modelled either.
- Piping the audio bytes, back-pressure and client disconnects are not modelled. They appear only as the `RelayedBytes` body.
- The content of the HTML player page, its browser script and the usage pages is not modelled. Neither are console logging, `server.listen` and the port constants.
- After an `Unhandled` rejection or a `Crashed` exception, what Node does next (by default the process exits) is not modelled.
- Concurrency between requests is not modelled. Each request is independent, and the instance loop is sequential.
- `Text.ReplaceFirst` does not model `$` substitution patterns in the replacement string. The only replacement used, `localhost:8082`, has none.
- `Relay.RelayResponse`: header values taken from the upstream answer are assumed valid, since Node's HTTP parser only passes on values it accepts.
